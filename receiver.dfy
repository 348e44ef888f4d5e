/** The car-side receiver: each line a client sends is split on ": " or
    ", ", its second and fourth pieces are read as ints, the stop policy is
    applied and the (angle, speed) pair goes to the motor driver. */
module Receiver {
  import opened JavaText

  /** The port startServer listens on. Accepting connections is not
      modelled: each accepted client is one call of HandleClient, and this
      constant only records the port. */
  const ListenPort: int := 8888

  /** What controlCar receives. */
  datatype Command = Command(angle: int, speed: int)

  /** How handleClient treats one line: skipped because the split did not
      give four pieces, skipped because a number did not parse
      (NumberFormatException), or parsed. */
  datatype LineResult = Malformed | NotANumber | Parsed(cmd: Command)

  // ---------------------------------------------------------------------
  // String.split(": |, ")

  /** One of the two separators ": " and ", " starts at index i. */
  predicate SepAt(s: string, i: int) {
    0 <= i && i + 1 < |s| && (s[i] == ':' || s[i] == ',') && s[i + 1] == ' '
  }

  predicate IsSep(t: string) {
    t == ": " || t == ", "
  }

  predicate NoSep(s: string) {
    forall i :: 0 <= i < |s| ==> !SepAt(s, i)
  }

  /** The text between successive separators, scanning left to right: a
      separator matched at the front is taken whole, so the next match
      starts after it. No separator is a prefix of another and none can
      overlap itself, so this is the matching the regex engine makes. */
  function Pieces(s: string): (p: seq<string>)
    ensures 1 <= |p|
  {
    if s == [] then [[]]
    else if SepAt(s, 0) then [[]] + Pieces(s[2..])
    else
      var rest := Pieces(s[1..]);
      [[s[0]] + rest[0]] + rest[1..]
  }

  /** split with limit 0 removes every trailing empty string. */
  function DropTrailingEmpty(p: seq<string>): seq<string> {
    if p != [] && p[|p| - 1] == [] then DropTrailingEmpty(p[..|p| - 1]) else p
  }

  /** line.split(": |, "): the input itself when nothing matches (even an
      empty line gives one empty piece), otherwise the pieces with the
      trailing empty ones dropped; a separator at the very front does give
      a leading empty piece. */
  function JavaSplit(s: string): seq<string> {
    if NoSep(s) then [s] else DropTrailingEmpty(Pieces(s))
  }

  // ---------------------------------------------------------------------
  // One line

  /** Integer.parseInt(parts[1].trim()) then Integer.parseInt(parts[3].trim()). */
  function ParseNumbers(angleText: string, speedText: string): LineResult {
    match ParseInt(Trim(angleText))
    case None => NotANumber
    case Some(angle) =>
      match ParseInt(Trim(speedText))
      case None => NotANumber
      case Some(speed) => Parsed(Command(angle, speed))
  }

  /** The checks of the loop body: exactly four pieces, then two ints.
      Pieces 0 and 2, the labels, are never looked at. */
  function ParseLine(line: string): LineResult {
    var parts := JavaSplit(line);
    if |parts| != 4 then Malformed else ParseNumbers(parts[1], parts[3])
  }

  /** A parsed line holds two Java ints. */
  lemma ParseLineInt32(line: string)
    ensures ParseLine(line).Parsed? ==> IsInt32(ParseLine(line).cmd.angle) && IsInt32(ParseLine(line).cmd.speed)
  {
    var parts := JavaSplit(line);
    if |parts| == 4 {
      var a, b := ParseInt(Trim(parts[1])), ParseInt(Trim(parts[3]));
    }
  }

  /** The part split keeps is a prefix of the pieces, ends in a non-empty
      piece, and everything it drops is empty. */
  lemma {:induction false} DropTrailingEmptySpec(p: seq<string>)
    ensures var r := DropTrailingEmpty(p);
            |r| <= |p| && r == p[..|r|]
            && (r != [] ==> r[|r| - 1] != [])
            && (forall k :: |r| <= k < |p| ==> p[k] == [])
  {
    if p != [] && p[|p| - 1] == [] {
      DropTrailingEmptySpec(p[..|p| - 1]);
    }
  }

  /** finalAngle = (speed == 0) ? 0 : angle: a stopped car is also straightened. */
  function ApplyPolicy(c: Command): (r: Command)
    ensures r.speed == c.speed && PolicyHolds(r)
    ensures c.speed != 0 ==> r.angle == c.angle
  {
    Command(if c.speed == 0 then 0 else c.angle, c.speed)
  }

  predicate PolicyHolds(c: Command) {
    c.speed == 0 ==> c.angle == 0
  }

  /** The policy keeps the speed, keeps the angle of a moving car, and
      applying it twice changes nothing. */
  lemma ApplyPolicySpec(c: Command)
    ensures ApplyPolicy(c).speed == c.speed
    ensures c.speed != 0 ==> ApplyPolicy(c).angle == c.angle
    ensures PolicyHolds(ApplyPolicy(c))
    ensures PolicyHolds(c) <==> ApplyPolicy(c) == c
    ensures ApplyPolicy(ApplyPolicy(c)) == ApplyPolicy(c)
  {
  }

  /** What one line contributes to controlCar. */
  function LineCommands(line: string): seq<Command> {
    match ParseLine(line)
    case Parsed(c) => [ApplyPolicy(c)]
    case _ => []
  }

  /** f applied to every element, the results concatenated in order. */
  function FlatMap<A, B>(f: A -> seq<B>, xs: seq<A>): seq<B> {
    if xs == [] then [] else FlatMap(f, xs[..|xs| - 1]) + f(xs[|xs| - 1])
  }

  lemma {:induction false} FlatMapAppend<A, B>(f: A -> seq<B>, xs: seq<A>, ys: seq<A>)
    ensures FlatMap(f, xs + ys) == FlatMap(f, xs) + FlatMap(f, ys)
  {
    if ys == [] {
      assert xs + ys == xs;
    } else {
      assert (xs + ys)[..|xs + ys| - 1] == xs + ys[..|ys| - 1];
      FlatMapAppend(f, xs, ys[..|ys| - 1]);
    }
  }

  /** The commands handleClient dispatches for a stream of lines, in order:
      the policy applied to every line that parses, nothing for the rest. */
  function Dispatch(lines: seq<string>): seq<Command> {
    FlatMap(LineCommands, lines)
  }

  // ---------------------------------------------------------------------
  // The loop

  /** handleClient's read loop over the lines of one connection: a line
      that fails either check is skipped (`continue` and the catch of
      NumberFormatException), and the loop goes on to the next one. */
  method HandleClient(lines: seq<string>) returns (dispatched: seq<Command>)
    ensures dispatched == Dispatch(lines)
    ensures forall k :: 0 <= k < |dispatched| ==> PolicyHolds(dispatched[k])
  {
    dispatched := [];
    var i := 0;
    while i < |lines|
      invariant 0 <= i <= |lines|
      invariant dispatched == Dispatch(lines[..i])
    {
      var line := lines[i];
      i := i + 1;
      assert lines[..i][..i - 1] == lines[..i - 1];
      var parts := JavaSplit(line);
      if |parts| != 4 {
        continue;
      }
      var angle := ParseInt(Trim(parts[1]));
      var speed := ParseInt(Trim(parts[3]));
      if angle.None? || speed.None? {
        continue;
      }
      var finalAngle := if speed.value == 0 then 0 else angle.value;
      dispatched := dispatched + [Command(finalAngle, speed.value)];
    }
    assert lines[..i] == lines;
    DispatchKeepsPolicy(lines);
  }

  // ---------------------------------------------------------------------
  // Properties of Dispatch

  /** Every dispatched command obeys the stop policy and fits in an int. */
  lemma {:induction false} DispatchKeepsPolicy(lines: seq<string>)
    ensures forall k :: 0 <= k < |Dispatch(lines)| ==>
              PolicyHolds(Dispatch(lines)[k]) && IsInt32(Dispatch(lines)[k].angle) && IsInt32(Dispatch(lines)[k].speed)
  {
    if lines != [] {
      DispatchKeepsPolicy(lines[..|lines| - 1]);
      ParseLineInt32(lines[|lines| - 1]);
      assert Dispatch(lines) == Dispatch(lines[..|lines| - 1]) + LineCommands(lines[|lines| - 1]);
    }
  }

  /** Dispatch works line by line: the commands for a concatenation of
      streams are the concatenation of their commands. */
  lemma DispatchAppend(a: seq<string>, b: seq<string>)
    ensures Dispatch(a + b) == Dispatch(a) + Dispatch(b)
  {
    FlatMapAppend(LineCommands, a, b);
  }

  /** A line that does not parse neither dispatches anything nor ends the
      stream: what follows it is handled as if it were absent. */
  lemma SkippedLine(before: seq<string>, bad: string, after: seq<string>)
    requires !ParseLine(bad).Parsed?
    ensures Dispatch(before + [bad] + after) == Dispatch(before) + Dispatch(after)
  {
    DispatchAppend(before + [bad], after);
    DispatchSnoc(before, bad);
  }

  /** One more line adds exactly that line's commands. */
  lemma DispatchSnoc(lines: seq<string>, line: string)
    ensures Dispatch(lines + [line]) == Dispatch(lines) + LineCommands(line)
  {
    assert (lines + [line])[..|lines|] == lines;
  }

  /** At most one command per line. */
  lemma {:induction false} DispatchLength(lines: seq<string>)
    ensures |Dispatch(lines)| <= |lines|
  {
    if lines != [] {
      DispatchLength(lines[..|lines| - 1]);
    }
  }

  // ---------------------------------------------------------------------
  // Properties of the split

  /** A separator-free string is one piece. */
  lemma {:induction false} PiecesNoSep(s: string)
    requires NoSep(s)
    ensures Pieces(s) == [s]
  {
    if s != [] {
      assert !SepAt(s, 0);
      assert NoSep(s[1..]) by {
        forall i | 0 <= i < |s[1..]| ensures !SepAt(s[1..], i) {
          assert !SepAt(s, i + 1);
        }
      }
      PiecesNoSep(s[1..]);
      assert [s[0]] + s[1..] == s;
    }
  }

  /** The first separator after a separator-free prefix ends the first piece. */
  lemma {:induction false} PiecesCons(a: string, sep: string, rest: string)
    requires NoSep(a) && IsSep(sep)
    ensures Pieces(a + sep + rest) == [a] + Pieces(rest)
  {
    var s := a + sep + rest;
    if a == [] {
      assert s == sep + rest;
      assert SepAt(s, 0);
      assert s[2..] == rest;
    } else {
      assert !SepAt(a, 0);
      assert !SepAt(s, 0) by {
        if |a| == 1 {
          assert s[1] == sep[0];
        }
      }
      assert NoSep(a[1..]) by {
        forall i | 0 <= i < |a[1..]| ensures !SepAt(a[1..], i) {
          assert !SepAt(a, i + 1);
        }
      }
      assert s[1..] == a[1..] + sep + rest;
      PiecesCons(a[1..], sep, rest);
      assert s[0] == a[0] && [a[0]] + a[1..] == a;
    }
  }

  /** A string with a separator in it is not one separator-free piece. */
  lemma HasSep(a: string, sep: string, rest: string)
    requires IsSep(sep)
    ensures !NoSep(a + sep + rest)
  {
    assert SepAt(a + sep + rest, |a|);
  }

  /** Two separator-free fields, each followed by a separator, are the
      first two pieces. */
  lemma PiecesTwo(a: string, s1: string, b: string, s2: string, rest: string)
    requires NoSep(a) && NoSep(b) && IsSep(s1) && IsSep(s2)
    ensures Pieces(a + s1 + b + s2 + rest) == [a, b] + Pieces(rest)
  {
    assert a + s1 + b + s2 + rest == a + s1 + (b + s2 + rest);
    PiecesCons(a, s1, b + s2 + rest);
    PiecesCons(b, s2, rest);
  }

  /** Four separator-free fields joined by separators, the last one not
      empty, split back into exactly those four fields. */
  lemma SplitFour(a: string, s1: string, b: string, s2: string, c: string, s3: string, d: string)
    requires NoSep(a) && NoSep(b) && NoSep(c) && NoSep(d) && d != []
    requires IsSep(s1) && IsSep(s2) && IsSep(s3)
    ensures JavaSplit(a + s1 + b + s2 + c + s3 + d) == [a, b, c, d]
  {
    var rest := c + s3 + d;
    var line := a + s1 + b + s2 + rest;
    assert line == a + s1 + b + s2 + c + s3 + d;
    HasSep(a, s1, b + s2 + rest);
    assert line == a + s1 + (b + s2 + rest);
    PiecesTwo(a, s1, b, s2, rest);
    PiecesCons(c, s3, d);
    PiecesNoSep(d);
  }

  /** The labels are not checked: any separator-free labels give the same
      result as "Angle" and "Speed". */
  lemma LabelsIgnored(label1: string, x: string, label2: string, y: string)
    requires NoSep(label1) && NoSep(x) && NoSep(label2) && NoSep(y) && y != []
    ensures ParseLine(label1 + ": " + x + ", " + label2 + ": " + y) == ParseNumbers(x, y)
  {
    SplitFour(label1, ": ", x, ", ", label2, ": ", y);
  }

  /** A line with fewer than three separators never reaches the number parse. */
  lemma TooFewPieces(a: string, sep: string, b: string)
    requires NoSep(a) && NoSep(b) && IsSep(sep)
    ensures ParseLine(a) == Malformed
    ensures ParseLine(a + sep + b) == Malformed
  {
    HasSep(a, sep, b);
    PiecesCons(a, sep, b);
    PiecesNoSep(b);
    DropTrailingEmptySpec(Pieces(a + sep + b));
  }

  /** A decimal rendering holds no separator. */
  lemma RenderingNoSep(x: int)
    ensures NoSep(IntToString(x)) && IntToString(x) != []
  {
    var s := IntToString(x);
    forall i | 0 <= i < |s| ensures !SepAt(s, i) {
      IntToStringChars(x, i);
    }
  }

  /** Two rendered ints under any separator-free labels parse back to the
      pair, whatever the labels say. */
  lemma RenderedLineParses(label1: string, angle: int, label2: string, speed: int)
    requires NoSep(label1) && NoSep(label2) && IsInt32(angle) && IsInt32(speed)
    ensures ParseLine(label1 + ": " + IntToString(angle) + ", " + label2 + ": " + IntToString(speed))
            == Parsed(Command(angle, speed))
  {
    RenderingNoSep(angle);
    RenderingNoSep(speed);
    LabelsIgnored(label1, IntToString(angle), label2, IntToString(speed));
    ParseTrimmedToString(angle);
    ParseTrimmedToString(speed);
  }

  /** A line ending in a separator loses its empty last piece, so three
      fields and three separators make only three pieces. */
  lemma TrailingEmptyDropped(a: string, b: string, c: string)
    requires NoSep(a) && NoSep(b) && NoSep(c) && c != []
    ensures ParseLine(a + ": " + b + ", " + c + ": ") == Malformed
  {
    var line := a + ": " + b + ", " + c + ": ";
    assert line == a + ": " + b + ", " + (c + ": " + "");
    HasSep(a, ": ", b + ", " + (c + ": " + ""));
    assert line == a + ": " + (b + ", " + (c + ": " + ""));
    PiecesTwo(a, ": ", b, ", ", c + ": " + "");
    PiecesCons(c, ": ", "");
    assert Pieces(line) == [a, b, c] + [[]];
    DropOneEmpty([a, b, c]);
  }

  lemma DropOneEmpty(p: seq<string>)
    requires p != [] && p[|p| - 1] != []
    ensures DropTrailingEmpty(p + [[]]) == p
  {
    assert (p + [[]])[..|p|] == p;
  }
}
