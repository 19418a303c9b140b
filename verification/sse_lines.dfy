/**
 * Line buffering of the upstream server-sent-event stream: every decoded chunk is
 * appended to a buffer, the buffer is split on "\n", and the trailing partial line
 * is kept for the next chunk.
 */
module SseLines {

  predicate NoNewline(s: string) {
    '\n' !in s
  }

  predicate AllLines(lines: seq<string>) {
    forall i :: 0 <= i < |lines| ==> NoNewline(lines[i])
  }

  /** JavaScript's `s.split("\n")`: the pieces between newlines, always at least one. */
  function Split(s: string): (pieces: seq<string>)
    ensures |pieces| >= 1
    decreases |s|
  {
    if s == [] then [""]
    else
      var rest := Split(s[1..]);
      if s[0] == '\n' then [""] + rest
      else [[s[0]] + rest[0]] + rest[1..]
  }

  /** Every line followed by its "\n": what the complete lines stood for in the stream. */
  function Unlines(lines: seq<string>): string {
    if lines == [] then "" else lines[0] + "\n" + Unlines(lines[1..])
  }

  /** The pieces of a split joined back: every piece but the last followed by its "\n". */
  function Joined(pieces: seq<string>): string
    requires |pieces| >= 1
  {
    Unlines(pieces[..|pieces| - 1]) + pieces[|pieces| - 1]
  }

  /**
   * `lines = buffer.split("\n"); buffer = lines.pop() || ""`: the complete lines to act
   * on and the partial line carried to the next chunk. Nothing is lost or invented.
   */
  function SplitBuffer(s: string): (r: (seq<string>, string))
    ensures Unlines(r.0) + r.1 == s
    ensures AllLines(r.0) && NoNewline(r.1)
  {
    SplitJoin(s);
    SplitLines(s);
    var pieces := Split(s);
    (pieces[..|pieces| - 1], pieces[|pieces| - 1])
  }

  lemma {:induction false} UnlinesAppend(a: seq<string>, b: seq<string>)
    ensures Unlines(a + b) == Unlines(a) + Unlines(b)
  {
    if a == [] {
      assert a + b == b;
    } else {
      assert (a + b)[1..] == a[1..] + b;
      UnlinesAppend(a[1..], b);
    }
  }

  /** Glueing a prefix onto the first piece glues it onto the whole re-joined text. */
  lemma GlueFirst(c: string, q: seq<string>)
    requires |q| >= 1
    ensures Joined([c + q[0]] + q[1..]) == c + Joined(q)
  {
    var g := [c + q[0]] + q[1..];
    var n := |q|;
    if n > 1 {
      assert g[..n - 1] == [c + q[0]] + q[1..n - 1];
      assert g[..n - 1][1..] == q[1..n - 1];
      assert q[..n - 1] == [q[0]] + q[1..n - 1];
      assert q[..n - 1][1..] == q[1..n - 1];
    } else {
      assert g[..n - 1] == [] && q[..n - 1] == [];
    }
  }

  /** A leading empty piece stands for a leading "\n". */
  lemma EmptyFirst(q: seq<string>)
    requires |q| >= 1
    ensures Joined([""] + q) == "\n" + Joined(q)
  {
    var p := [""] + q;
    assert p[..|p| - 1] == [""] + q[..|q| - 1];
    assert p[..|p| - 1][1..] == q[..|q| - 1];
  }

  /** Joining the pieces of a split gives back the text split. */
  lemma {:induction false} SplitJoin(s: string)
    ensures Joined(Split(s)) == s
    decreases |s|
  {
    if s != [] {
      var rest := Split(s[1..]);
      SplitJoin(s[1..]);
      assert s == [s[0]] + s[1..];
      if s[0] == '\n' {
        EmptyFirst(rest);
      } else {
        GlueFirst([s[0]], rest);
      }
    }
  }

  /** No piece of a split holds a newline. */
  lemma {:induction false} SplitLines(s: string)
    ensures AllLines(Split(s))
    decreases |s|
  {
    if s != [] {
      var rest := Split(s[1..]);
      SplitLines(s[1..]);
      var p := Split(s);
      if s[0] == '\n' {
        assert forall i :: 1 <= i < |p| ==> p[i] == rest[i - 1];
      } else {
        assert forall i :: 1 <= i < |p| ==> p[i] == rest[i];
        assert NoNewline(rest[0]);
      }
    }
  }

  lemma {:induction false} SplitLine(s: string)
    requires NoNewline(s)
    ensures Split(s) == [s]
    decreases |s|
  {
    if s != [] {
      SplitLine(s[1..]);
      assert s == [s[0]] + s[1..];
    }
  }

  lemma {:induction false} SplitAfterLine(a: string, t: string)
    requires NoNewline(a)
    ensures Split(a + "\n" + t) == [a] + Split(t)
    decreases |a|
  {
    if a == [] {
      assert (a + "\n" + t)[1..] == t;
    } else {
      assert (a + "\n" + t)[1..] == a[1..] + "\n" + t;
      SplitAfterLine(a[1..], t);
      assert a == [a[0]] + a[1..];
    }
  }

  /** Splitting undoes `Unlines`: complete lines and the partial rest come back unchanged. */
  lemma {:induction false} SplitUnlines(lines: seq<string>, rest: string)
    requires AllLines(lines) && NoNewline(rest)
    ensures Split(Unlines(lines) + rest) == lines + [rest]
  {
    if lines == [] {
      assert Unlines(lines) + rest == rest;
      SplitLine(rest);
    } else {
      var t := Unlines(lines[1..]) + rest;
      assert AllLines(lines[1..]) by {
        forall i | 0 <= i < |lines[1..]| ensures NoNewline(lines[1..][i]) {
          assert lines[1..][i] == lines[i + 1];
        }
      }
      SplitUnlines(lines[1..], rest);
      assert Unlines(lines) + rest == lines[0] + "\n" + t;
      assert NoNewline(lines[0]);
      SplitAfterLine(lines[0], t);
      assert Split(Unlines(lines) + rest) == [lines[0]] + (lines[1..] + [rest]);
      assert lines == [lines[0]] + lines[1..];
    }
  }

  /** The buffer split is determined by its joined text: complete lines and rest come back. */
  lemma SplitBufferUnlines(lines: seq<string>, rest: string)
    requires AllLines(lines) && NoNewline(rest)
    ensures SplitBuffer(Unlines(lines) + rest) == (lines, rest)
  {
    SplitUnlines(lines, rest);
    var p := lines + [rest];
    assert p[..|p| - 1] == lines;
  }

  /**
   * Chunk boundaries do not matter: splitting `x + y` in one go gives the lines of `x`,
   * then the lines of `x`'s carried partial line followed by `y`, and the same final rest.
   */
  lemma ChunkBoundary(x: string, y: string)
    ensures var (l1, r1) := SplitBuffer(x);
      var (l2, r2) := SplitBuffer(r1 + y);
      SplitBuffer(x + y) == (l1 + l2, r2)
  {
    var (l1, r1) := SplitBuffer(x);
    var (l2, r2) := SplitBuffer(r1 + y);
    UnlinesAppend(l1, l2);
    assert Unlines(l1 + l2) + r2 == Unlines(l1) + (Unlines(l2) + r2);
    assert Unlines(l1 + l2) + r2 == x + y;
    AllLinesAppend(l1, l2);
    SplitBufferUnlines(l1 + l2, r2);
  }

  lemma AllLinesAppend(a: seq<string>, b: seq<string>)
    requires AllLines(a) && AllLines(b)
    ensures AllLines(a + b)
  {
    forall i | 0 <= i < |a + b| ensures NoNewline((a + b)[i]) {
      if i < |a| { assert (a + b)[i] == a[i]; } else { assert (a + b)[i] == b[i - |a|]; }
    }
  }

  /** The text of a sequence of chunks, in order. */
  function Concat(chunks: seq<string>): string {
    if chunks == [] then "" else Concat(chunks[..|chunks| - 1]) + chunks[|chunks| - 1]
  }
}
