/** Reading the end of a log file backwards in chunks (internal/logfile). */
module LogTail {
  import opened Text

  type Byte = b: nat | b < 256

  const LF: Byte := 10
  const CR: Byte := 13
  const ESC: Byte := 27

  const CHUNK := 65536
  const DEFAULT_LINES := 200

  predicate IsParameter(b: Byte) {
    48 <= b <= 57 || b == 59 // [0-9;]
  }

  function ParameterRun(s: seq<Byte>): (n: nat)
    ensures n <= |s|
    ensures n < |s| ==> !IsParameter(s[n])
  {
    if s != [] && IsParameter(s[0]) then 1 + ParameterRun(s[1..]) else 0
  }

  /** Length of the colour escape ESC [ parameters m at the head of s, 0 when there is none. */
  function EscapeLength(s: seq<Byte>): (n: nat)
    ensures n <= |s|
  {
    if |s| >= 2 && s[0] == ESC && s[1] == 91 then
      var k := ParameterRun(s[2..]);
      if 2 + k < |s| && s[2 + k] == 109 then 3 + k else 0
    else 0
  }

  function StripANSI(s: seq<Byte>): seq<Byte> {
    if s == [] then []
    else if EscapeLength(s) > 0 then StripANSI(s[EscapeLength(s)..])
    else [s[0]] + StripANSI(s[1..])
  }

  /** `strings.ReplaceAll(s, "\r\n", "\n")` */
  function NormalizeNewlines(s: seq<Byte>): seq<Byte> {
    if s == [] then []
    else if |s| >= 2 && s[0] == CR && s[1] == LF then [LF] + NormalizeNewlines(s[2..])
    else [s[0]] + NormalizeNewlines(s[1..])
  }

  function CountLF(s: seq<Byte>): nat {
    if s == [] then 0 else (if s[0] == LF then 1 else 0) + CountLF(s[1..])
  }

  /** The newline-separated parts of the cleaned text; the last one is unterminated. */
  function Segments(content: seq<Byte>): (r: seq<seq<Byte>>)
    ensures |r| >= 1
  {
    Split(NormalizeNewlines(StripANSI(content)), LF)
  }

  function WithoutEmptyLast(segs: seq<seq<Byte>>): seq<seq<Byte>>
    requires |segs| >= 1
  {
    if segs[|segs| - 1] == [] then segs[..|segs| - 1] else segs
  }

  function LastN<T>(s: seq<T>, n: nat): seq<T> {
    if |s| > n then s[|s| - n..] else s
  }

  function Limit(n: int): nat {
    if n <= 0 then DEFAULT_LINES else n
  }

  /** The answer computed from the whole file: strip, normalise, cut into lines, keep the last ones. */
  function WholeFileTail(content: seq<Byte>, n: int): seq<seq<Byte>> {
    LastN(WithoutEmptyLast(Segments(content)), Limit(n))
  }

  // ---- a newline is a boundary no escape and no CRLF pair crosses from the left

  lemma {:induction false} ParameterRunAtNewline(a: seq<Byte>, b: seq<Byte>)
    ensures ParameterRun(a + [LF] + b) == ParameterRun(a)
  {
    var s := a + [LF] + b;
    if a != [] && IsParameter(a[0]) {
      assert s[1..] == a[1..] + [LF] + b;
      ParameterRunAtNewline(a[1..], b);
    }
  }

  lemma EscapeAtNewline(a: seq<Byte>, b: seq<Byte>)
    ensures EscapeLength(a + [LF] + b) == EscapeLength(a)
  {
    var s := a + [LF] + b;
    if |a| >= 2 {
      assert s[2..] == a[2..] + [LF] + b;
      ParameterRunAtNewline(a[2..], b);
    }
  }

  /** Stripping distributes over a newline, whatever stands on either side of it. */
  lemma {:induction false} StripAtNewline(a: seq<Byte>, b: seq<Byte>)
    ensures StripANSI(a + [LF] + b) == StripANSI(a) + [LF] + StripANSI(b)
    decreases |a|
  {
    var s := a + [LF] + b;
    EscapeAtNewline(a, b);
    var n := EscapeLength(a);
    if a == [] {
      assert s[1..] == b;
    } else if n > 0 {
      assert s[n..] == a[n..] + [LF] + b;
      StripAtNewline(a[n..], b);
    } else {
      assert s[1..] == a[1..] + [LF] + b;
      StripAtNewline(a[1..], b);
    }
  }

  /** One step into a text with a newline behind it. */
  lemma StepIn(a: seq<Byte>, b: seq<Byte>, k: nat)
    requires k <= |a|
    ensures (a + [LF] + b)[k..] == a[k..] + [LF] + b && (a + [LF])[k..] == a[k..] + [LF]
    ensures (a + [LF] + b)[|a| + 1..] == b && (a + [LF])[|a| + 1..] == []
  {
  }

  lemma NormalizeStep(a: seq<Byte>, b: seq<Byte>, k: nat)
    requires k <= |a| && (k == 1 || k == 2) && (k == 2 <==> a[0] == CR && (if |a| == 1 then LF else a[1]) == LF)
    requires NormalizeNewlines(a[k..] + [LF] + b) == NormalizeNewlines(a[k..] + [LF]) + NormalizeNewlines(b)
    ensures NormalizeNewlines(a + [LF] + b) == NormalizeNewlines(a + [LF]) + NormalizeNewlines(b)
  {
    StepIn(a, b, k);
    Joined(if k == 2 then LF else a[0], NormalizeNewlines(a[k..] + [LF]), NormalizeNewlines(b));
  }

  lemma Joined(x: Byte, a: seq<Byte>, b: seq<Byte>)
    ensures [x] + (a + b) == ([x] + a) + b
  {
  }

  lemma {:induction false} NormalizeAtNewline(a: seq<Byte>, b: seq<Byte>)
    ensures NormalizeNewlines(a + [LF] + b) == NormalizeNewlines(a + [LF]) + NormalizeNewlines(b)
    decreases |a|
  {
    StepIn(a, b, 0);
    if a != [] && !(a[0] == CR && (|a| == 1 || a[1] == LF)) {
      NormalizeAtNewline(a[1..], b);
      NormalizeStep(a, b, 1);
    } else if |a| > 1 {
      NormalizeAtNewline(a[2..], b);
      NormalizeStep(a, b, 2);
    }
  }

  lemma {:induction false} NormalizeEndsInNewline(a: seq<Byte>)
    ensures var r := NormalizeNewlines(a + [LF]); |r| > 0 && r[|r| - 1] == LF
    decreases |a|
  {
    var h := a + [LF];
    if a == [] {
      assert h[1..] == [];
    } else if a[0] == CR && (|a| == 1 || a[1] == LF) {
      if |a| == 1 {
        assert h[2..] == [];
      } else {
        assert h[2..] == a[2..] + [LF];
        NormalizeEndsInNewline(a[2..]);
      }
    } else {
      assert h[1..] == a[1..] + [LF];
      NormalizeEndsInNewline(a[1..]);
    }
  }

  /** What precedes a newline cannot influence the segments after it. */
  lemma SegmentsAtNewline(a: seq<Byte>, b: seq<Byte>) returns (before: seq<seq<Byte>>)
    ensures Segments(a + [LF] + b) == before + Segments(b)
  {
    StripAtNewline(a, b);
    var sa, sb := StripANSI(a), StripANSI(b);
    NormalizeAtNewline(sa, sb);
    NormalizeEndsInNewline(sa);
    var head := NormalizeNewlines(sa + [LF]);
    var w := head[..|head| - 1];
    assert head == w + [LF];
    SplitAtSeparator(w, LF, NormalizeNewlines(sb));
    before := Split(w, LF);
  }

  // ---- cleaning neither adds nor removes a newline

  lemma {:induction false} EscapeHasNoNewline(s: seq<Byte>, k: nat)
    requires k <= ParameterRun(s)
    ensures CountLF(s) == CountLF(s[k..])
    decreases k
  {
    if k > 0 {
      EscapeHasNoNewline(s[1..], k - 1);
      assert s[1..][k - 1..] == s[k..];
    } else {
      assert s[0..] == s;
    }
  }

  lemma {:induction false} StripKeepsNewlines(s: seq<Byte>)
    ensures CountLF(StripANSI(s)) == CountLF(s)
    decreases |s|
  {
    if s == [] {
    } else if EscapeLength(s) > 0 {
      var k := ParameterRun(s[2..]);
      EscapeHasNoNewline(s[2..], k);
      assert s[2..][k..] == s[2 + k..];
      assert s[2 + k..][1..] == s[3 + k..];
      assert CountLF(s) == CountLF(s[1..]) && s[1..][1..] == s[2..];
      assert CountLF(s) == CountLF(s[2..]) == CountLF(s[2 + k..]) == CountLF(s[3 + k..]);
      StripKeepsNewlines(s[EscapeLength(s)..]);
    } else {
      StripKeepsNewlines(s[1..]);
    }
  }

  lemma {:induction false} NormalizeKeepsNewlines(s: seq<Byte>)
    ensures CountLF(NormalizeNewlines(s)) == CountLF(s)
    decreases |s|
  {
    if s == [] {
    } else if |s| >= 2 && s[0] == CR && s[1] == LF {
      assert s[1..][1..] == s[2..];
      NormalizeKeepsNewlines(s[2..]);
    } else {
      NormalizeKeepsNewlines(s[1..]);
    }
  }

  lemma {:induction false} SplitCountsNewlines(s: seq<Byte>)
    ensures |Split(s, LF)| == CountLF(s) + 1
  {
    if s != [] {
      SplitCountsNewlines(s[1..]);
    }
  }

  lemma SegmentCount(content: seq<Byte>)
    ensures |Segments(content)| == CountLF(content) + 1
  {
    StripKeepsNewlines(content);
    NormalizeKeepsNewlines(StripANSI(content));
    SplitCountsNewlines(NormalizeNewlines(StripANSI(content)));
  }

  lemma {:induction false} FirstNewline(s: seq<Byte>) returns (i: nat)
    requires CountLF(s) > 0
    ensures i < |s| && s[i] == LF
    ensures CountLF(s[i + 1..]) == CountLF(s) - 1
  {
    if s[0] == LF {
      i := 0;
    } else {
      var j := FirstNewline(s[1..]);
      i := j + 1;
      assert s[1..][j + 1..] == s[i + 1..];
    }
  }

  /** A tail holding more than Limit(n) newlines already determines the answer for the whole file. */
  lemma EnoughNewlines(content: seq<Byte>, off: nat, n: int)
    requires off <= |content|
    requires CountLF(content[off..]) > Limit(n)
    ensures WholeFileTail(content[off..], n) == WholeFileTail(content, n)
  {
    var buf := content[off..];
    var i := FirstNewline(buf);
    var rest := buf[i + 1..];
    assert buf == buf[..i] + [LF] + rest;
    assert content == (content[..off] + buf[..i]) + [LF] + rest;
    var b1 := SegmentsAtNewline(buf[..i], rest);
    var b2 := SegmentsAtNewline(content[..off] + buf[..i], rest);
    SegmentCount(rest);
    SameLast(b1, Segments(rest), Limit(n));
    SameLast(b2, Segments(rest), Limit(n));
  }

  lemma SameLast(before: seq<seq<Byte>>, segs: seq<seq<Byte>>, n: nat)
    requires |segs| >= n + 1
    ensures LastN(WithoutEmptyLast(before + segs), n) == LastN(WithoutEmptyLast(segs), n)
  {
    var all, some := WithoutEmptyLast(before + segs), WithoutEmptyLast(segs);
    assert all == before + some;
  }

  /** Reads chunks from the end until the file is exhausted or more than `limit` newlines are buffered. */
  method ReadBackwards(content: seq<Byte>, limit: nat) returns (buf: seq<Byte>, off: nat)
    ensures off <= |content| && buf == content[off..]
    ensures off > 0 ==> CountLF(buf) > limit
  {
    buf := [];
    off := |content|;
    while off > 0 && CountLF(buf) <= limit
      invariant 0 <= off <= |content|
      invariant buf == content[off..]
    {
      var read := CHUNK;
      if read > off {
        read := off;
      }
      off := off - read;
      var tmp := content[off..off + read];
      assert content[off..] == tmp + content[off + read..];
      buf := tmp + buf;
    }
  }

  /** The answer is an end of the cleaned lines, and as long as was asked for when there are that many. */
  lemma TailIsExact(content: seq<Byte>, n: int)
    ensures var all, out := WithoutEmptyLast(Segments(content)), WholeFileTail(content, n);
            && HasSuffix(all, out)
            && (var asked := if n <= 0 then 200 else n; |out| == if |all| < asked then |all| else asked)
  {
  }

  /** The chunked backwards read: no file, no answer; otherwise exactly the whole-file answer. */
  method Tail(file: Option<seq<Byte>>, n: int) returns (lines: Option<seq<seq<Byte>>>)
    ensures file.None? <==> lines.None?
    ensures file.Some? ==> lines.value == WholeFileTail(file.value, n)
  {
    if file.None? {
      return None;
    }
    var limit := n;
    if n <= 0 {
      limit := DEFAULT_LINES;
    }
    var buf, off := ReadBackwards(file.value, limit);
    if off > 0 {
      EnoughNewlines(file.value, off, n);
    } else {
      assert buf == file.value;
    }
    var last := LastLines(Segments(buf), limit);
    lines := Some(last);
  }

  method LastLines(segs: seq<seq<Byte>>, limit: nat) returns (lines: seq<seq<Byte>>)
    requires |segs| >= 1
    ensures lines == LastN(WithoutEmptyLast(segs), limit)
  {
    lines := segs;
    if lines[|lines| - 1] == [] {
      lines := lines[..|lines| - 1];
    }
    if |lines| > limit {
      lines := lines[|lines| - limit..];
    }
  }

  // ---- what the answer is: the text lines a program wrote, coloured or not, ended by LF or CRLF

  predicate PlainLine(line: seq<Byte>) {
    LF !in line && CR !in line
  }

  /** `raw` is how some writer put `line` on disk: escapes anywhere, perhaps a carriage return at its end. */
  predicate RawFormOf(raw: seq<Byte>, line: seq<Byte>) {
    PlainLine(line) && (StripANSI(raw) == line || StripANSI(raw) == line + [CR])
  }

  predicate RawForms(raws: seq<seq<Byte>>, lines: seq<seq<Byte>>) {
    |raws| == |lines| && forall i :: 0 <= i < |raws| ==> RawFormOf(raws[i], lines[i])
  }

  function Written(raws: seq<seq<Byte>>): seq<Byte> {
    if raws == [] then [] else raws[0] + [LF] + Written(raws[1..])
  }

  lemma {:induction false} NormalizePlainLine(line: seq<Byte>)
    requires PlainLine(line)
    ensures NormalizeNewlines(line + [LF]) == line + [LF]
    ensures NormalizeNewlines(line + [CR] + [LF]) == line + [LF]
  {
    var s, t := line + [LF], line + [CR] + [LF];
    if line == [] {
      assert s[1..] == [] && t[2..] == [];
    } else {
      assert s[1..] == line[1..] + [LF] && t[1..] == line[1..] + [CR] + [LF];
      NormalizePlainLine(line[1..]);
      assert line == [line[0]] + line[1..];
    }
  }

  lemma {:induction false} PlainSplit(line: seq<Byte>)
    requires LF !in line
    ensures Split(line, LF) == [line]
  {
    if line != [] {
      PlainSplit(line[1..]);
      assert line == [line[0]] + line[1..];
    }
  }

  lemma RawLineIsOneSegment(raw: seq<Byte>, line: seq<Byte>, rest: seq<Byte>)
    requires RawFormOf(raw, line)
    ensures Segments(raw + [LF] + rest) == [line] + Segments(rest)
  {
    StripAtNewline(raw, rest);
    NormalizeAtNewline(StripANSI(raw), StripANSI(rest));
    NormalizePlainLine(line);
    SplitAtSeparator(line, LF, NormalizeNewlines(StripANSI(rest)));
    PlainSplit(line);
  }

  lemma {:induction false} SegmentsOfWritten(raws: seq<seq<Byte>>, lines: seq<seq<Byte>>)
    requires RawForms(raws, lines)
    ensures Segments(Written(raws)) == lines + [[]]
  {
    if raws != [] {
      RawLineIsOneSegment(raws[0], lines[0], Written(raws[1..]));
      SegmentsOfWritten(raws[1..], lines[1..]);
      assert lines == [lines[0]] + lines[1..];
    }
  }

  /** Round trip with the writer: the tail of a log is the last n of the text lines that were logged, 200 by default. */
  lemma TailOfWrittenLines(raws: seq<seq<Byte>>, lines: seq<seq<Byte>>, n: int)
    requires RawForms(raws, lines)
    ensures var asked := if n <= 0 then 200 else n;
            WholeFileTail(Written(raws), n) == lines[if |lines| < asked then 0 else |lines| - asked..]
  {
    SegmentsOfWritten(raws, lines);
    assert (lines + [[]])[..|lines|] == lines;
  }

  lemma {:induction false} WrittenThen(raws: seq<seq<Byte>>, lines: seq<seq<Byte>>, rest: seq<Byte>)
    requires RawForms(raws, lines)
    ensures Segments(Written(raws) + rest) == lines + Segments(rest)
  {
    if raws == [] {
      assert Written(raws) + rest == rest && lines + Segments(rest) == Segments(rest);
    } else {
      var more := Written(raws[1..]);
      Reassociated(raws[0] + [LF], more, rest);
      RawLineIsOneSegment(raws[0], lines[0], more + rest);
      WrittenThen(raws[1..], lines[1..], rest);
      assert lines == [lines[0]] + lines[1..];
      Reassociated([lines[0]], lines[1..], Segments(rest));
    }
  }

  lemma Reassociated<T>(a: seq<T>, b: seq<T>, c: seq<T>)
    ensures (a + b) + c == a + (b + c)
  {
  }

  lemma PlainIsOneSegment(rest: seq<Byte>)
    requires PlainLine(StripANSI(rest))
    ensures Segments(rest) == [StripANSI(rest)]
  {
    NormalizePlain(StripANSI(rest));
    PlainSplit(StripANSI(rest));
  }

  lemma {:induction false} NormalizePlain(line: seq<Byte>)
    requires PlainLine(line)
    ensures NormalizeNewlines(line) == line
  {
    if line != [] {
      NormalizePlain(line[1..]);
      assert line == [line[0]] + line[1..];
    }
  }

  /** A line that is still being written counts as the last one. */
  lemma TailOfUnfinishedLine(raws: seq<seq<Byte>>, lines: seq<seq<Byte>>, rest: seq<Byte>, n: int)
    requires RawForms(raws, lines) && StripANSI(rest) != [] && PlainLine(StripANSI(rest))
    ensures var all, asked := lines + [StripANSI(rest)], if n <= 0 then 200 else n;
            WholeFileTail(Written(raws) + rest, n) == all[if |all| < asked then 0 else |all| - asked..]
  {
    WrittenThen(raws, lines, rest);
    PlainIsOneSegment(rest);
  }

  // ---- colours

  /** What a colouring program emits: text, and escapes ESC [ parameters m in between. */
  datatype Piece = Char(b: Byte) | Colour(parameters: seq<Byte>)

  predicate IsPiece(p: Piece) {
    match p
    case Char(b) => b != 27
    case Colour(parameters) => forall i :: 0 <= i < |parameters| ==> 48 <= parameters[i] <= 57 || parameters[i] == 59
  }

  predicate Pieces(ps: seq<Piece>) {
    forall i :: 0 <= i < |ps| ==> IsPiece(ps[i])
  }

  function Render(ps: seq<Piece>): seq<Byte> {
    if ps == [] then []
    else (match ps[0] case Char(b) => [b] case Colour(parameters) => [27, 91] + parameters + [109]) + Render(ps[1..])
  }

  function TextOf(ps: seq<Piece>): seq<Byte> {
    if ps == [] then [] else (match ps[0] case Char(b) => [b] case Colour(_) => []) + TextOf(ps[1..])
  }

  lemma {:induction false} RunOfParameters(parameters: seq<Byte>, rest: seq<Byte>)
    requires IsPiece(Colour(parameters))
    ensures ParameterRun(parameters + [109] + rest) == |parameters|
  {
    var s := parameters + [109] + rest;
    if parameters != [] {
      assert s[1..] == parameters[1..] + [109] + rest;
      RunOfParameters(parameters[1..], rest);
    }
  }

  lemma ColourIsEscape(parameters: seq<Byte>, rest: seq<Byte>)
    requires IsPiece(Colour(parameters))
    ensures StripANSI([27, 91] + parameters + [109] + rest) == StripANSI(rest)
  {
    var s := [27, 91] + parameters + [109] + rest;
    assert s[2..] == parameters + [109] + rest;
    RunOfParameters(parameters, rest);
    assert EscapeLength(s) == 3 + |parameters|;
    assert s[3 + |parameters|..] == rest;
  }

  /** Stripping leaves exactly the text of coloured output. */
  lemma {:induction false} StripLeavesText(ps: seq<Piece>)
    requires Pieces(ps)
    ensures StripANSI(Render(ps)) == TextOf(ps)
  {
    if ps != [] {
      var rest := Render(ps[1..]);
      StripLeavesText(ps[1..]);
      match ps[0] {
        case Char(b) =>
          assert ([b] + rest)[1..] == rest;
        case Colour(parameters) =>
          ColourIsEscape(parameters, rest);
          assert Render(ps) == [27, 91] + parameters + [109] + rest;
      }
    }
  }
}
