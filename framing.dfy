/** Line framing of a worker's output stream: complete newline-terminated
    lines are cut off the front of an accumulating buffer, the incomplete tail
    stays buffered, and lines that do not parse are skipped. */
module Framing {

  import opened Wrappers

  /** Position of the first newline of `s`. */
  function FirstNewline(s: string): (k: nat)
    requires '\n' in s
    ensures k < |s| && s[k] == '\n'
    ensures '\n' !in s[..k]
  {
    if s[0] == '\n' then 0
    else
      assert '\n' in s[1..] by { var j :| 0 <= j < |s| && s[j] == '\n'; assert s[1..][j - 1] == '\n'; }
      var k := 1 + FirstNewline(s[1..]);
      assert s[..k] == [s[0]] + s[1..][..k - 1];
      k
  }

  /** The complete lines of `s`, in order, without their terminators. */
  function Lines(s: string): seq<string>
    decreases |s|
  {
    if '\n' in s then
      var k := FirstNewline(s);
      [s[..k]] + Lines(s[k + 1..])
    else []
  }

  /** What stays in the buffer once every complete line is cut off. */
  function Rest(s: string): string
    decreases |s|
  {
    if '\n' in s then Rest(s[FirstNewline(s) + 1..]) else s
  }

  /** Each line followed by its newline, concatenated in order. */
  function Framed(lines: seq<string>): string
  {
    if lines == [] then "" else lines[0] + "\n" + Framed(lines[1..])
  }

  /** The messages of the lines that parse, in order; the others are dropped. */
  function Decoded<M>(lines: seq<string>, parse: string -> Option<M>): seq<M>
  {
    if lines == [] then []
    else
      match parse(lines[0])
      case Some(m) => [m] + Decoded(lines[1..], parse)
      case None => Decoded(lines[1..], parse)
  }

  /** How the split proceeds: the first line is cut at the first newline. */
  lemma Unfold(s: string)
    ensures '\n' in s ==> Lines(s) == [s[..FirstNewline(s)]] + Lines(s[FirstNewline(s) + 1..])
    ensures '\n' in s ==> Rest(s) == Rest(s[FirstNewline(s) + 1..])
    ensures '\n' !in s ==> Lines(s) == [] && Rest(s) == s
  {
  }

  /** One step of the split: the first line, its newline, and what follows. */
  lemma SplitStep(s: string) returns (line: string, t: string)
    requires '\n' in s
    ensures s == line + "\n" + t && '\n' !in line
    ensures Lines(s) == [line] + Lines(t) && Rest(s) == Rest(t)
  {
    var k := FirstNewline(s);
    line, t := s[..k], s[k + 1..];
    assert s == s[..k] + [s[k]] + s[k + 1..];
  }

  /** Framing a non-empty list of lines frames its head first. */
  lemma FramedCons(line: string, lines: seq<string>)
    ensures Framed([line] + lines) == line + "\n" + Framed(lines)
  {
    assert ([line] + lines)[1..] == lines;
  }

  /** The lines taken, re-framed, followed by the rest give back the input. */
  lemma {:induction false} FramingRoundTrip(s: string)
    ensures Framed(Lines(s)) + Rest(s) == s
    decreases |s|
  {
    if '\n' in s {
      var line, t := SplitStep(s);
      FramingRoundTrip(t);
      FramedCons(line, Lines(t));
    }
  }

  /** The buffer left behind never holds a complete line. */
  lemma {:induction false} RestHasNoNewline(s: string)
    ensures '\n' !in Rest(s)
    decreases |s|
  {
    if '\n' in s {
      RestHasNoNewline(s[FirstNewline(s) + 1..]);
    }
  }

  /** Every line taken is newline-free. */
  lemma {:induction false} LinesHaveNoNewline(s: string)
    ensures forall i :: 0 <= i < |Lines(s)| ==> '\n' !in Lines(s)[i]
    decreases |s|
  {
    if '\n' in s {
      var k := FirstNewline(s);
      LinesHaveNoNewline(s[k + 1..]);
      assert Lines(s) == [s[..k]] + Lines(s[k + 1..]);
    }
  }

  /** The converse of the round trip: framing newline-free lines and a
      newline-free tail, then splitting, gives back exactly those lines and
      that tail; so the split is the only one with these properties. */
  lemma {:induction false} SplitOfFramed(lines: seq<string>, tail: string)
    requires forall i :: 0 <= i < |lines| ==> '\n' !in lines[i]
    requires '\n' !in tail
    ensures Lines(Framed(lines) + tail) == lines
    ensures Rest(Framed(lines) + tail) == tail
  {
    if lines != [] {
      var s := Framed(lines) + tail;
      var l := lines[0];
      var after := Framed(lines[1..]) + tail;
      assert s == l + "\n" + after;
      assert s[|l|] == '\n' && s[..|l|] == l;
      assert '\n' in s;
      var k := FirstNewline(s);
      assert k == |l|;
      assert s[k + 1..] == after;
      SplitOfFramed(lines[1..], tail);
    } else {
      assert Framed(lines) + tail == tail;
    }
  }

  /** A line that does not parse is dropped and the lines after it are still
      decoded; a line that parses contributes exactly its message, in place. */
  lemma {:induction false} DecodedAppend<M>(a: seq<string>, b: seq<string>, parse: string -> Option<M>)
    ensures Decoded(a + b, parse) == Decoded(a, parse) + Decoded(b, parse)
  {
    if a != [] {
      assert (a + b)[0] == a[0];
      assert (a + b)[1..] == a[1..] + b;
      DecodedAppend(a[1..], b, parse);
    } else {
      assert a + b == b;
    }
  }

  /** An unparseable line between two runs of lines is skipped without
      affecting what is decoded before or after it. */
  lemma {:induction false} GarbageLineSkipped<M>(a: seq<string>, bad: string, b: seq<string>, parse: string -> Option<M>)
    requires parse(bad).None?
    ensures Decoded(a + [bad] + b, parse) == Decoded(a, parse) + Decoded(b, parse)
  {
    DecodedAppend(a + [bad], b, parse);
    DecodedAppend(a, [bad], parse);
    assert Decoded([bad], parse) == Decoded([bad][1..], parse);
  }
}
