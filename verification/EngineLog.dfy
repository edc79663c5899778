/**
 The engine-output annotator: lines are reassembled across writes and the ones that name a tunnel client
 port get the owning application appended (internal/service/enginelog_windows.go). One char stands for one byte.
 The port map does not change while the stream is written.
 */
module EngineLog {
  import opened Text

  const TUN_CLIENT := "172.19.0.1:"

  predicate IsDigit(c: char) {
    '0' <= c <= '9'
  }

  predicate IsWord(c: char) {
    IsDigit(c) || 'a' <= c <= 'z' || 'A' <= c <= 'Z' || c == '_'
  }

  function DigitRun(s: string): (n: nat)
    ensures n <= |s|
    ensures forall k :: 0 <= k < n ==> IsDigit(s[k])
    ensures n < |s| ==> !IsDigit(s[n])
  {
    if s != "" && IsDigit(s[0]) then 1 + DigitRun(s[1..]) else 0
  }

  /** The port of a tunnel client address that starts at i, on a word boundary. */
  function PortAt(line: string, i: nat): Option<string>
    requires i <= |line|
  {
    var from := i + |TUN_CLIENT|;
    if (i > 0 && IsWord(line[i - 1])) || !(TUN_CLIENT <= line[i..]) || DigitRun(line[from..]) == 0 then None
    else Some(line[from..from + DigitRun(line[from..])])
  }

  /** The leftmost client port from i on. */
  function FindPort(line: string, i: nat): Option<string>
    requires i <= |line|
    decreases |line| - i
  {
    if PortAt(line, i).Some? then PortAt(line, i)
    else if i == |line| then None
    else FindPort(line, i + 1)
  }

  /** The search reports the leftmost client port, and none only when no position holds one. */
  lemma {:induction false} FindPortIsLeftmost(line: string, i: nat)
    requires i <= |line|
    ensures FindPort(line, i).None? ==> forall j :: i <= j <= |line| ==> PortAt(line, j).None?
    ensures FindPort(line, i).Some? ==>
              exists j :: i <= j <= |line| && PortAt(line, j) == FindPort(line, i)
                          && forall k :: i <= k < j ==> PortAt(line, k).None?
    decreases |line| - i
  {
    if PortAt(line, i).None? && i < |line| {
      FindPortIsLeftmost(line, i + 1);
    }
  }

  function TrimLineEnd(s: string): string {
    if s != "" && (s[|s| - 1] == '\r' || s[|s| - 1] == '\n') then TrimLineEnd(s[..|s| - 1]) else s
  }

  function Annotate(ports: map<string, string>, line: string): string {
    var port := FindPort(line, 0);
    if port.None? || port.value !in ports || ports[port.value] == "" then line
    else TrimLineEnd(line) + " [app: " + ports[port.value] + "]\n"
  }

  // ---- the stream seen as a whole

  function Lines(s: string): seq<string> {
    var parts := Split(s, '\n');
    parts[..|parts| - 1]
  }

  function Remainder(s: string): string {
    var parts := Split(s, '\n');
    parts[|parts| - 1]
  }

  function AnnotateAll(ports: map<string, string>, lines: seq<string>): string {
    if lines == [] then "" else Annotate(ports, lines[0] + "\n") + AnnotateAll(ports, lines[1..])
  }

  /** What a stream becomes: each complete line annotated, in order. */
  function Output(ports: map<string, string>, s: string): string {
    AnnotateAll(ports, Lines(s))
  }

  lemma {:induction false} AnnotateAllConcat(ports: map<string, string>, a: seq<string>, b: seq<string>)
    ensures AnnotateAll(ports, a + b) == AnnotateAll(ports, a) + AnnotateAll(ports, b)
  {
    if a == [] {
      assert a + b == b;
    } else {
      assert (a + b)[1..] == a[1..] + b;
      AnnotateAllConcat(ports, a[1..], b);
    }
  }

  lemma {:induction false} NoLine(s: string)
    requires '\n' !in s
    ensures Split(s, '\n') == [s]
  {
    if s != "" {
      NoLine(s[1..]);
      assert s == [s[0]] + s[1..];
    }
  }

  lemma {:induction false} AtLastNewline(s: string) returns (i: nat)
    requires '\n' in s
    ensures i < |s| && s[i] == '\n' && '\n' !in s[i + 1..]
  {
    i := |s| - 1;
    if s[i] == '\n' {
      assert s[i + 1..] == "";
    } else {
      var front := s[..|s| - 1];
      i := AtLastNewline(front);
      assert s[i + 1..] == front[i + 1..] + [s[|s| - 1]];
    }
  }

  /** Whatever follows a text only extends its unterminated last part. */
  lemma SplitExtends(a: string, b: string)
    ensures Split(a + b, '\n') == Lines(a) + Split(Remainder(a) + b, '\n')
  {
    if '\n' in a {
      var i := AtLastNewline(a);
      var u, v := a[..i], a[i + 1..];
      assert a == u + "\n" + v && a + b == u + "\n" + (v + b);
      SplitAtSeparator(u, '\n', v);
      SplitAtSeparator(u, '\n', v + b);
      NoLine(v);
    } else {
      NoLine(a);
    }
  }

  lemma LinesExtend(a: string, b: string)
    ensures Lines(a + b) == Lines(a) + Lines(Remainder(a) + b)
    ensures Remainder(a + b) == Remainder(Remainder(a) + b)
  {
    SplitExtends(a, b);
    FrontAndLast(Split(a + b, '\n'), Lines(a), Split(Remainder(a) + b, '\n'));
  }

  lemma FrontAndLast(parts: seq<string>, first: seq<string>, rest: seq<string>)
    requires |rest| >= 1 && parts == first + rest
    ensures parts[..|parts| - 1] == first + rest[..|rest| - 1]
    ensures parts[|parts| - 1] == rest[|rest| - 1]
  {
  }

  /** Cutting a stream anywhere: emit the complete lines of the first piece, carry its remainder into the second. */
  lemma ChunkBoundary(ports: map<string, string>, a: string, b: string)
    ensures Output(ports, a + b) == Output(ports, a) + Output(ports, Remainder(a) + b)
    ensures Remainder(a + b) == Remainder(Remainder(a) + b)
  {
    LinesExtend(a, b);
    AnnotateAllConcat(ports, Lines(a), Lines(Remainder(a) + b));
  }

  datatype Stream = Stream(partial: string, out: string)

  function AfterWrite(ports: map<string, string>, st: Stream, p: string): Stream {
    Stream(Remainder(st.partial + p), st.out + Output(ports, st.partial + p))
  }

  function AfterWrites(ports: map<string, string>, writes: seq<string>): Stream {
    if writes == [] then Stream("", "")
    else AfterWrite(ports, AfterWrites(ports, writes[..|writes| - 1]), writes[|writes| - 1])
  }

  function Joined(writes: seq<string>): string {
    if writes == [] then "" else Joined(writes[..|writes| - 1]) + writes[|writes| - 1]
  }

  /** However a stream is cut into writes, the output and the carried remainder are those of the whole stream. */
  lemma {:induction false} ChunkingIsInvisible(ports: map<string, string>, writes: seq<string>)
    ensures AfterWrites(ports, writes) == Stream(Remainder(Joined(writes)), Output(ports, Joined(writes)))
  {
    if writes != [] {
      var front, last := writes[..|writes| - 1], writes[|writes| - 1];
      ChunkingIsInvisible(ports, front);
      ChunkBoundary(ports, Joined(front), last);
    }
  }

  lemma {:induction false} TrimLineEndIsPrefix(s: string)
    ensures TrimLineEnd(s) <= s
    ensures forall c :: c in s[|TrimLineEnd(s)|..] ==> c == '\r' || c == '\n'
  {
    if s != "" && (s[|s| - 1] == '\r' || s[|s| - 1] == '\n') {
      var front := s[..|s| - 1];
      TrimLineEndIsPrefix(front);
      assert s[|TrimLineEnd(s)|..] == front[|TrimLineEnd(s)|..] + [s[|s| - 1]];
    }
  }

  // ---- what an annotation says

  /** A client address with this port stands at i, on a word boundary, and the port is all the digits there are. */
  predicate Names(line: string, i: nat, port: string) {
    var from := i + |"172.19.0.1:"|;
    var to := from + |port|;
    && to <= |line| && line[i..from] == "172.19.0.1:" && line[from..to] == port
    && (i > 0 ==> var c := line[i - 1];
                  !('0' <= c <= '9' || 'a' <= c <= 'z' || 'A' <= c <= 'Z' || c == '_'))
    && port != "" && (forall c :: c in port ==> '0' <= c <= '9') && (to < |line| ==> !('0' <= line[to] <= '9'))
  }

  lemma DigitRunIsExact(s: string, n: nat)
    requires n <= |s| && (forall k :: 0 <= k < n ==> IsDigit(s[k])) && (n < |s| ==> !IsDigit(s[n]))
    ensures DigitRun(s) == n
  {
  }

  lemma PortAtNames(line: string, i: nat, port: string)
    requires i <= |line|
    ensures PortAt(line, i) == Some(port) <==> Names(line, i, port)
  {
    var from := i + |TUN_CLIENT|;
    if TUN_CLIENT <= line[i..] {
      assert line[i..from] == TUN_CLIENT;
      var s := line[from..];
      var n := DigitRun(s);
      assert forall k :: 0 <= k < n ==> line[from + k] == s[k];
      if Names(line, i, port) {
        forall k | 0 <= k < |port|
          ensures IsDigit(s[k])
        {
          assert s[k] == line[from + k] == port[k] && port[k] in port;
        }
        DigitRunIsExact(s, |port|);
      }
    }
  }

  /** The first client address of a line is the one at i, with this port. */
  ghost predicate NamesFirst(line: string, i: nat, port: string) {
    Names(line, i, port) && forall j, p :: 0 <= j < i ==> !Names(line, j, p)
  }

  lemma FindPortNames(line: string, i: nat, port: string)
    requires NamesFirst(line, i, port)
    ensures FindPort(line, 0) == Some(port)
  {
    PortAtNames(line, i, port);
    FindPortIsLeftmost(line, 0);
    var found := FindPort(line, 0);
    var j :| 0 <= j <= |line| && PortAt(line, j) == found && forall k :: 0 <= k < j ==> PortAt(line, k).None?;
    PortAtNames(line, j, found.value);
  }

  lemma NothingNamed(line: string)
    requires forall i: nat, p :: !Names(line, i, p)
    ensures FindPort(line, 0).None?
  {
    FindPortIsLeftmost(line, 0);
    if FindPort(line, 0).Some? {
      var j :| 0 <= j <= |line| && PortAt(line, j) == FindPort(line, 0);
      PortAtNames(line, j, FindPort(line, 0).value);
    }
  }

  /** A line whose first client port belongs to an application ends in that application's name. */
  lemma AnnotationNamesTheApp(ports: map<string, string>, text: string, ending: string, i: nat, port: string)
    requires ending in ["\n", "\r\n"] && (text != "" ==> text[|text| - 1] != '\r' && text[|text| - 1] != '\n')
    requires NamesFirst(text + ending, i, port) && port in ports && ports[port] != ""
    ensures Annotate(ports, text + ending) == text + " [app: " + ports[port] + "]\n"
  {
    FindPortNames(text + ending, i, port);
    TrimEnding(text, ending);
  }

  lemma TrimEnding(text: string, ending: string)
    requires ending in ["\n", "\r\n"] && (text != "" ==> text[|text| - 1] != '\r' && text[|text| - 1] != '\n')
    ensures TrimLineEnd(text + ending) == text
  {
    var line := text + ending;
    assert line[..|line| - 1] == text + ending[..|ending| - 1];
    if |ending| == 2 {
      assert line[..|line| - 1][..|line| - 2] == text;
    } else {
      assert line[..|line| - 1] == text;
    }
    assert TrimLineEnd(text) == text;
  }

  /** Every other line passes through untouched: no client port in it, or one that no application is known for. */
  lemma OtherLinesPassThrough(ports: map<string, string>, line: string, i: nat, port: string)
    requires (forall j: nat, p :: !Names(line, j, p))
             || (NamesFirst(line, i, port) && (port !in ports || ports[port] == ""))
    ensures Annotate(ports, line) == line
  {
    if forall j: nat, p :: !Names(line, j, p) {
      NothingNamed(line);
    } else {
      FindPortNames(line, i, port);
    }
  }

  /** While nothing is known about any port, what went in comes out, but for the unterminated rest that is held back. */
  lemma {:induction false} UnknownPortsChangeNothing(s: string)
    ensures Output(map[], s) + Remainder(s) == s
    decreases |s|
  {
    if '\n' in s {
      var i := FirstNewline(s);
      UnknownPortsChangeNothing(s[i + 1..]);
      UnknownFirstLine(s, i);
    } else {
      NoLine(s);
      Unfinished(s);
    }
  }

  lemma UnknownPort(line: string)
    ensures Annotate(map[], line) == line
  {
  }

  lemma UnknownFirstLine(s: string, i: nat)
    requires i < |s| && s[i] == '\n' && '\n' !in s[..i]
    requires Output(map[], s[i + 1..]) + Remainder(s[i + 1..]) == s[i + 1..]
    ensures Output(map[], s) + Remainder(s) == s
  {
    TakeLine(map[], s, i);
    UnknownPort(s[..i + 1]);
    Recombined(s, i + 1, Output(map[], s[i + 1..]), Remainder(s[i + 1..]));
  }

  lemma Recombined(s: string, i: nat, out: string, rest: string)
    requires i <= |s| && out + rest == s[i..]
    ensures (s[..i] + out) + rest == s
  {
    assert s == s[..i] + s[i..];
  }

  lemma Unfinished(s: string)
    requires Split(s, '\n') == [s]
    ensures Output(map[], s) == "" && Remainder(s) == s
  {
    assert Lines(s) == [];
  }

  lemma {:induction false} FirstNewline(s: string) returns (i: nat)
    requires '\n' in s
    ensures i < |s| && s[i] == '\n' && '\n' !in s[..i]
  {
    i := 0;
    while s[i] != '\n'
      invariant i < |s| && '\n' !in s[..i]
      decreases |s| - i
    {
      i := i + 1;
    }
  }

  /** Annotation never loses text: only line-end characters of the original may be missing from the front. */
  lemma AnnotationKeepsTheLine(ports: map<string, string>, line: string)
    requires line != "" && line[|line| - 1] == '\n'
    ensures TrimLineEnd(line) <= line && TrimLineEnd(line) <= Annotate(ports, line)
    ensures forall c :: c in line[|TrimLineEnd(line)|..] ==> c == '\r' || c == '\n'
    ensures var a := Annotate(ports, line); a != "" && a[|a| - 1] == '\n'
  {
    TrimLineEndIsPrefix(line);
  }

  // ---- the writer

  class Annotator {
    const ports: map<string, string>
    var partial: string
    var out: string

    function State(): Stream
      reads this
    {
      Stream(partial, out)
    }

    constructor (ports: map<string, string>)
      ensures State() == Stream("", "") && this.ports == ports
    {
      this.ports := ports;
      partial := "";
      out := "";
    }

    method Write(p: string)
      modifies this
      ensures State() == AfterWrite(ports, old(State()), p)
    {
      var buf := partial + p;
      var done := "";
      ghost var whole := buf;
      var i := IndexOfNewline(buf);
      while i >= 0
        invariant -1 <= i < |buf|
        invariant i >= 0 ==> buf[i] == '\n' && '\n' !in buf[..i]
        invariant i < 0 ==> '\n' !in buf
        invariant done + Output(ports, buf) == Output(ports, whole)
        invariant Remainder(buf) == Remainder(whole)
        invariant partial == old(partial) && out == old(out)
        decreases |buf|
      {
        TakeLine(ports, buf, i);
        var line := buf[..i + 1];
        buf := buf[i + 1..];
        ConcatIsAssociative(done, Annotate(ports, line), Output(ports, buf));
        done := done + Annotate(ports, line);
        i := IndexOfNewline(buf);
      }
      NoLine(buf);
      partial := buf;
      if |done| > 0 {
        out := out + done;
      }
    }
  }

  lemma ConcatIsAssociative(a: string, b: string, c: string)
    ensures (a + b) + c == a + (b + c)
  {
  }

  lemma FirstLine(line: string, rest: string)
    requires '\n' !in line
    ensures Lines(line + "\n" + rest) == [line] + Lines(rest) && Remainder(line + "\n" + rest) == Remainder(rest)
  {
    SplitAtSeparator(line, '\n', rest);
    NoLine(line);
    FrontAndLast(Split(line + "\n" + rest, '\n'), [line], Split(rest, '\n'));
  }

  lemma AnnotateFirst(ports: map<string, string>, line: string, lines: seq<string>)
    ensures AnnotateAll(ports, [line] + lines) == Annotate(ports, line + "\n") + AnnotateAll(ports, lines)
  {
    assert ([line] + lines)[1..] == lines;
  }

  lemma TakeLine(ports: map<string, string>, buf: string, i: nat)
    requires i < |buf| && buf[i] == '\n' && '\n' !in buf[..i]
    ensures Output(ports, buf) == Annotate(ports, buf[..i + 1]) + Output(ports, buf[i + 1..])
    ensures Remainder(buf) == Remainder(buf[i + 1..])
  {
    var line, rest := buf[..i], buf[i + 1..];
    assert buf == line + "\n" + rest;
    assert buf[..i + 1] == line + "\n";
    FirstLine(line, rest);
    AnnotateFirst(ports, line, Lines(rest));
  }

  method IndexOfNewline(s: string) returns (i: int)
    ensures -1 <= i < |s|
    ensures i < 0 ==> '\n' !in s
    ensures i >= 0 ==> s[i] == '\n' && '\n' !in s[..i]
  {
    i := 0;
    while i < |s|
      invariant 0 <= i <= |s|
      invariant '\n' !in s[..i]
    {
      if s[i] == '\n' {
        return;
      }
      i := i + 1;
    }
    i := -1;
  }
}
