/**
 The size-rotated append log (internal/logfile).
 The directory is a map from segment number to content: 0 is the base file, i is the backup `name.i`.
 I/O never fails.
 */
module LogRotator {
  import opened Text

  type Byte = b: nat | b < 256
  type Bytes = seq<Byte>

  const DEFAULT_MAX_SIZE := 10485760

  datatype Log = Log(maxSize: nat, maxBackups: nat, isOpen: bool, size: nat, disk: map<nat, Bytes>)

  datatype Event = Write(p: Bytes) | Close | Reopen

  function Opened(disk: map<nat, Bytes>): map<nat, Bytes> {
    if 0 in disk then disk else disk[0 := []]
  }

  function NewLog(disk: map<nat, Bytes>, maxSize: int, maxBackups: int): Log {
    var d := Opened(disk);
    Log(if maxSize <= 0 then DEFAULT_MAX_SIZE else maxSize, if maxBackups < 0 then 0 else maxBackups, true, |d[0]|, d)
  }

  function At<T>(m: map<nat, T>, j: nat): Option<T> {
    if j in m then Some(m[j]) else None
  }

  /** What segment j holds after a rotation: backups move up by one, the one at the limit is dropped,
      the base becomes backup 1 and starts empty; numbers above the limit are not touched. */
  function ShiftedTo<T>(m: map<nat, seq<T>>, maxBackups: nat, j: nat): Option<seq<T>> {
    if j == 0 then Some([]) else if j <= maxBackups then At(m, j - 1) else At(m, j)
  }

  function UpTo(n: nat): (r: set<nat>)
    ensures forall j: nat :: j in r <==> j <= n
  {
    if n == 0 then {0} else UpTo(n - 1) + {n}
  }

  function Shifted<T>(m: map<nat, seq<T>>, maxBackups: nat): (r: map<nat, seq<T>>)
    ensures forall j: nat :: At(r, j) == ShiftedTo(m, maxBackups, j)
  {
    var numbers := UpTo(maxBackups) + m.Keys;
    map j: nat | j in numbers && ShiftedTo(m, maxBackups, j).Some? :: ShiftedTo(m, maxBackups, j).value
  }

  lemma ShiftIsDetermined(m: map<nat, Bytes>, maxBackups: nat, r: map<nat, Bytes>)
    requires forall j: nat :: At(r, j) == ShiftedTo(m, maxBackups, j)
    ensures r == Shifted(m, maxBackups)
  {
    var s := Shifted(m, maxBackups);
    forall j: nat
      ensures (j in r <==> j in s) && (j in r ==> r[j] == s[j])
    {
      assert At(r, j) == At(s, j);
    }
  }

  function Appended(l: Log, p: Bytes): Log
    requires 0 in l.disk
  {
    if !l.isOpen then l
    else
      var r := if l.size > 0 && l.size + |p| > l.maxSize
               then l.(disk := Shifted(l.disk, l.maxBackups), size := 0) else l;
      r.(disk := r.disk[0 := r.disk[0] + p], size := r.size + |p|)
  }

  function Step(l: Log, e: Event): (r: Log)
    requires 0 in l.disk
    ensures 0 in r.disk
  {
    match e
    case Write(p) => Appended(l, p)
    case Close => l.(isOpen := false)
    case Reopen => l.(isOpen := true, size := |l.disk[0]|)
  }

  function Run(l: Log, events: seq<Event>): (r: Log)
    requires 0 in l.disk
    ensures 0 in r.disk
  {
    if events == [] then l else Step(Run(l, events[..|events| - 1]), events[|events| - 1])
  }

  /** The writes that reached an open log, in order (an empty write leaves no trace). */
  function Accepted(isOpen: bool, events: seq<Event>): seq<Bytes> {
    if events == [] then []
    else
      var front := events[..|events| - 1];
      var e := events[|events| - 1];
      Accepted(isOpen, front) + (if e.Write? && OpenAfter(isOpen, front) then Piece(e.p) else [])
  }

  function OpenAfter(isOpen: bool, events: seq<Event>): bool {
    if events == [] then isOpen
    else
      match events[|events| - 1]
      case Write(_) => OpenAfter(isOpen, events[..|events| - 1])
      case Close => false
      case Reopen => true
  }

  function Piece(p: Bytes): seq<Bytes> {
    if p == [] then [] else [p]
  }

  function Concat(pieces: seq<Bytes>): Bytes {
    if pieces == [] then [] else pieces[0] + Concat(pieces[1..])
  }

  function Segment<T>(m: map<nat, seq<T>>, i: nat): seq<T> {
    if i in m then m[i] else []
  }

  /** Segments n, n - 1, ..., 0 one after the other: oldest first, base last; missing segments are skipped. */
  function OldestFirst<T>(m: map<nat, seq<T>>, n: nat): seq<T> {
    if n == 0 then Segment(m, 0) else Segment(m, n) + OldestFirst(m, n - 1)
  }

  // ---- the invariant: every segment is a list of whole writes, and together they end the history

  ghost predicate MadeOf(disk: map<nat, Bytes>, pieces: map<nat, seq<Bytes>>) {
    pieces.Keys == disk.Keys && forall i :: i in disk ==> disk[i] == Concat(pieces[i])
  }

  ghost predicate Conserves(l: Log, pieces: map<nat, seq<Bytes>>, history: seq<Bytes>) {
    && 0 in l.disk
    && MadeOf(l.disk, pieces)
    && HasSuffix(history, OldestFirst(pieces, l.maxBackups))
    && l.size == |l.disk[0]|
    && (l.size > l.maxSize ==> |pieces[0]| == 1)
    && (forall i :: i in pieces ==> [] !in pieces[i])
  }

  lemma {:induction false} ConcatAppend(a: seq<Bytes>, b: seq<Bytes>)
    ensures Concat(a + b) == Concat(a) + Concat(b)
  {
    if a == [] {
      assert a + b == b;
    } else {
      assert (a + b)[1..] == a[1..] + b;
      ConcatAppend(a[1..], b);
    }
  }

  lemma {:induction false} ShiftDropsOldest(pieces: map<nat, seq<Bytes>>, maxBackups: nat, k: nat)
    requires 1 <= k <= maxBackups
    ensures OldestFirst(Shifted(pieces, maxBackups), k) == OldestFirst(pieces, k - 1)
  {
    assert At(Shifted(pieces, maxBackups), k) == At(pieces, k - 1);
    assert At(Shifted(pieces, maxBackups), 0) == Some([]);
    if k > 1 {
      ShiftDropsOldest(pieces, maxBackups, k - 1);
    }
  }

  lemma {:induction false} AppendToBase(pieces: map<nat, seq<Bytes>>, n: nat, tail: seq<Bytes>)
    requires 0 in pieces
    ensures OldestFirst(pieces[0 := pieces[0] + tail], n) == OldestFirst(pieces, n) + tail
  {
    if n > 0 {
      AppendToBase(pieces, n - 1, tail);
    }
  }

  lemma RotationConserves(l: Log, pieces: map<nat, seq<Bytes>>, history: seq<Bytes>)
    requires Conserves(l, pieces, history)
    ensures Conserves(l.(disk := Shifted(l.disk, l.maxBackups), size := 0), Shifted(pieces, l.maxBackups), history)
    ensures Shifted(pieces, l.maxBackups)[0] == []
  {
    var n := l.maxBackups;
    var now := Shifted(pieces, n);
    if n > 0 {
      ShiftDropsOldest(pieces, n, n);
      SuffixOfSuffix(history, OldestFirst(pieces, n), OldestFirst(pieces, n - 1));
    }
    var d := Shifted(l.disk, n);
    forall i: nat
      ensures (i in d <==> i in now) && (i in d ==> d[i] == Concat(now[i]) && [] !in now[i])
    {
      assert At(d, i) == ShiftedTo(l.disk, n, i) && At(now, i) == ShiftedTo(pieces, n, i);
    }
    assert now.Keys == d.Keys;
  }

  lemma SuffixOfSuffix<T>(whole: seq<T>, part: seq<T>, smaller: seq<T>)
    requires HasSuffix(whole, part) && HasSuffix(part, smaller)
    ensures HasSuffix(whole, smaller)
  {
    assert whole[|whole| - |smaller|..] == whole[|whole| - |part|..][|part| - |smaller|..];
  }

  lemma ConcatPiece(p: Bytes)
    ensures Concat(Piece(p)) == p
  {
    if p != [] {
      assert Piece(p)[1..] == [];
      assert p + [] == p;
    }
  }

  lemma AppendMadeOf(disk: map<nat, Bytes>, pieces: map<nat, seq<Bytes>>, p: Bytes)
    requires 0 in disk && MadeOf(disk, pieces)
    ensures MadeOf(disk[0 := disk[0] + p], pieces[0 := pieces[0] + Piece(p)])
  {
    ConcatAppend(pieces[0], Piece(p));
    ConcatPiece(p);
  }

  lemma AppendSuffix<T>(whole: seq<T>, part: seq<T>, tail: seq<T>)
    requires HasSuffix(whole, part)
    ensures HasSuffix(whole + tail, part + tail)
  {
    assert (whole + tail)[|whole| - |part|..] == whole[|whole| - |part|..] + tail;
  }

  lemma AppendConserves(l: Log, pieces: map<nat, seq<Bytes>>, history: seq<Bytes>, p: Bytes)
    requires Conserves(l, pieces, history)
    requires l.size > 0 ==> l.size + |p| <= l.maxSize
    ensures Conserves(l.(disk := l.disk[0 := l.disk[0] + p], size := l.size + |p|),
                      pieces[0 := pieces[0] + Piece(p)], history + Piece(p))
  {
    AppendToBase(pieces, l.maxBackups, Piece(p));
    AppendMadeOf(l.disk, pieces, p);
    AppendSuffix(history, OldestFirst(pieces, l.maxBackups), Piece(p));
    if l.size == 0 {
      EmptyConcat(pieces[0]);
    }
  }

  lemma EmptyConcat(pieces: seq<Bytes>)
    requires [] !in pieces && Concat(pieces) == []
    ensures pieces == []
  {
  }

  lemma StepConserves(l: Log, pieces: map<nat, seq<Bytes>>, history: seq<Bytes>, e: Event)
    returns (now: map<nat, seq<Bytes>>)
    requires Conserves(l, pieces, history)
    ensures Conserves(Step(l, e), now, history + if e.Write? && l.isOpen then Piece(e.p) else [])
  {
    now := pieces;
    assert history + [] == history;
    if e.Write? && l.isOpen {
      var r := l;
      if l.size > 0 && l.size + |e.p| > l.maxSize {
        RotationConserves(l, pieces, history);
        now := Shifted(pieces, l.maxBackups);
        r := l.(disk := Shifted(l.disk, l.maxBackups), size := 0);
      }
      AppendConserves(r, now, history, e.p);
      now := now[0 := now[0] + Piece(e.p)];
    }
  }

  function InitialPieces(disk: map<nat, Bytes>): map<nat, seq<Bytes>> {
    map i | i in disk :: Piece(disk[i])
  }

  lemma AcceptedLast(history: seq<Bytes>, isOpen: bool, front: seq<Event>, e: Event, events: seq<Event>)
    requires events == front + [e]
    ensures history + Accepted(isOpen, events)
         == history + Accepted(isOpen, front) + if e.Write? && OpenAfter(isOpen, front) then Piece(e.p) else []
  {
    assert events[..|events| - 1] == front;
  }

  lemma {:induction false} RunFromConserves(l: Log, pieces: map<nat, seq<Bytes>>, history: seq<Bytes>,
                                            events: seq<Event>)
      returns (now: map<nat, seq<Bytes>>)
    requires Conserves(l, pieces, history)
    ensures Conserves(Run(l, events), now, history + Accepted(l.isOpen, events))
  {
    if events == [] {
      now := pieces;
      assert history + [] == history;
    } else {
      var front, e := events[..|events| - 1], events[|events| - 1];
      now := RunFromConserves(l, pieces, history, front);
      now := StepConserves(Run(l, front), now, history + Accepted(l.isOpen, front), e);
      RunLast(l, history, events);
    }
  }

  /**
   Conservation over every run of writes, closes and reopenings on any directory content:
   the segments hold whole writes, and read oldest to newest they are the most recent part of all that was logged.
   */
  lemma RunConserves(disk: map<nat, Bytes>, maxSize: int, maxBackups: int, events: seq<Event>)
      returns (pieces: map<nat, seq<Bytes>>)
    ensures var l := NewLog(disk, maxSize, maxBackups);
            Conserves(Run(l, events), pieces,
                      OldestFirst(InitialPieces(Opened(disk)), l.maxBackups) + Accepted(true, events))
  {
    var l := NewLog(disk, maxSize, maxBackups);
    InitialConserves(l);
    pieces := RunFromConserves(l, InitialPieces(l.disk), OldestFirst(InitialPieces(l.disk), l.maxBackups), events);
  }

  lemma InitialConserves(l: Log)
    requires 0 in l.disk && l.size == |l.disk[0]|
    ensures Conserves(l, InitialPieces(l.disk), OldestFirst(InitialPieces(l.disk), l.maxBackups))
  {
    var pieces := InitialPieces(l.disk);
    forall i | i in l.disk
      ensures l.disk[i] == Concat(pieces[i])
    {
      if l.disk[i] != [] {
        assert pieces[i][1..] == [];
      }
    }
  }

  lemma {:induction false} OpenFlag(l: Log, events: seq<Event>)
    requires 0 in l.disk
    ensures Run(l, events).isOpen == OpenAfter(l.isOpen, events)
    ensures Run(l, events).maxBackups == l.maxBackups && Run(l, events).maxSize == l.maxSize
  {
    if events != [] {
      OpenFlag(l, events[..|events| - 1]);
    }
  }

  lemma {:induction false} ConcatOldestFirst(disk: map<nat, Bytes>, pieces: map<nat, seq<Bytes>>, n: nat)
    requires MadeOf(disk, pieces)
    ensures OldestFirst(disk, n) == Concat(OldestFirst(pieces, n))
  {
    assert Segment(disk, n) == Concat(Segment(pieces, n));
    if n > 0 {
      ConcatOldestFirst(disk, pieces, n - 1);
      ConcatAppend(Segment(pieces, n), OldestFirst(pieces, n - 1));
    }
  }

  /** The same as bytes: the files, oldest backup through base, are a suffix of everything ever logged. */
  lemma RunBytesAreSuffix(disk: map<nat, Bytes>, maxSize: int, maxBackups: int, events: seq<Event>)
    ensures var l := NewLog(disk, maxSize, maxBackups);
            HasSuffix(OldestFirst(l.disk, l.maxBackups) + Concat(Accepted(true, events)),
                      OldestFirst(Run(l, events).disk, l.maxBackups))
  {
    var l := NewLog(disk, maxSize, maxBackups);
    var pieces := RunConserves(disk, maxSize, maxBackups, events);
    OpenFlag(l, events);
    var n := l.maxBackups;
    var start := OldestFirst(InitialPieces(l.disk), n);
    var history := start + Accepted(true, events);
    var part := OldestFirst(pieces, n);
    assert history == history[..|history| - |part|] + part;
    ConcatAppend(history[..|history| - |part|], part);
    ConcatAppend(start, Accepted(true, events));
    ConcatOldestFirst(Run(l, events).disk, pieces, n);
    InitialConserves(l);
    ConcatOldestFirst(l.disk, InitialPieces(l.disk), n);
  }

  /** No run creates a backup numbered above the limit. */
  lemma {:induction false} RunBackupBound(disk: map<nat, Bytes>, maxSize: int, maxBackups: int, events: seq<Event>,
                                          i: nat)
    requires i > NewLog(disk, maxSize, maxBackups).maxBackups && i !in disk
    ensures i !in Run(NewLog(disk, maxSize, maxBackups), events).disk
  {
    if events != [] {
      var l := NewLog(disk, maxSize, maxBackups);
      var front := events[..|events| - 1];
      RunBackupBound(disk, maxSize, maxBackups, front, i);
      OpenFlag(l, front);
      var d := Run(l, front).disk;
      var s := Shifted(d, l.maxBackups);
      assert At(s, i) == ShiftedTo(d, l.maxBackups, i);
    }
  }

  // ---- how much is kept

  /** What one write leaves in every segment, and when it rotates: only a non-empty base that has no room for it. */
  lemma WriteRotatesExactly(l: Log, p: Bytes, j: nat)
    requires 0 in l.disk && l.isOpen && l.size == |l.disk[0]|
    ensures var r, full := Step(l, Event.Write(p)), l.disk[0] != [] && |l.disk[0]| + |p| > l.maxSize;
            && r.disk[0] == (if full then p else l.disk[0] + p) && r.size == |r.disk[0]| && r.isOpen
            && (j > 0 ==> At(r.disk, j) == if full && j <= l.maxBackups then At(l.disk, j - 1) else At(l.disk, j))
  {
    assert At(Shifted(l.disk, l.maxBackups), j) == ShiftedTo(l.disk, l.maxBackups, j);
    assert At(Shifted(l.disk, l.maxBackups), 0) == ShiftedTo(l.disk, l.maxBackups, 0);
  }

  function HeadLength(pieces: seq<Bytes>): nat {
    if pieces == [] then 0 else |pieces[0]|
  }

  /** No backup was closed early: it had no room for the write that opened the segment after it. */
  ghost predicate Filled(l: Log, pieces: map<nat, seq<Bytes>>) {
    && (forall i: nat :: i < l.maxBackups && i + 1 in l.disk ==>
          i in l.disk && i in pieces && |l.disk[i + 1]| + HeadLength(pieces[i]) > l.maxSize)
  }

  /** Either everything that was logged is still there, or every backup is in use. */
  ghost predicate KeepsWhatFits(l: Log, pieces: map<nat, seq<Bytes>>, history: seq<Bytes>) {
    OldestFirst(pieces, l.maxBackups) == history || l.maxBackups in l.disk
  }

  ghost predicate Thrifty(l: Log, pieces: map<nat, seq<Bytes>>, history: seq<Bytes>) {
    Conserves(l, pieces, history) && Filled(l, pieces) && KeepsWhatFits(l, pieces, history)
  }

  lemma RotationFills(l: Log, pieces: map<nat, seq<Bytes>>, p: Bytes)
    requires 0 in l.disk && l.size == |l.disk[0]| && l.size > 0 && l.size + |p| > l.maxSize
    requires MadeOf(l.disk, pieces) && Filled(l, pieces)
    ensures Filled(l.(disk := Shifted(l.disk, l.maxBackups)[0 := p], size := |p|),
                   Shifted(pieces, l.maxBackups)[0 := Piece(p)])
  {
    var n := l.maxBackups;
    var d, q := Shifted(l.disk, n), Shifted(pieces, n);
    forall i: nat | i < n && i + 1 in d
      ensures (i == 0 || i in d) && (i == 0 || i in q)
      ensures |d[i + 1]| + HeadLength(if i == 0 then Piece(p) else q[i]) > l.maxSize
    {
      assert At(d, i + 1) == At(l.disk, i);
      if i > 0 {
        assert At(d, i) == At(l.disk, i - 1) && At(q, i) == At(pieces, i - 1);
        assert i - 1 + 1 in l.disk;
      }
    }
  }

  lemma AppendFills(l: Log, pieces: map<nat, seq<Bytes>>, p: Bytes)
    requires 0 in l.disk && MadeOf(l.disk, pieces) && Filled(l, pieces)
    ensures Filled(l.(disk := l.disk[0 := l.disk[0] + p], size := l.size + |p|),
                   pieces[0 := pieces[0] + Piece(p)])
  {
  }

  lemma RotationKeepsWhatFits(l: Log, pieces: map<nat, seq<Bytes>>, history: seq<Bytes>)
    requires 0 in l.disk && MadeOf(l.disk, pieces) && Filled(l, pieces) && KeepsWhatFits(l, pieces, history)
    ensures KeepsWhatFits(l.(disk := Shifted(l.disk, l.maxBackups), size := 0), Shifted(pieces, l.maxBackups), history)
  {
    var n := l.maxBackups;
    assert At(Shifted(l.disk, n), n) == ShiftedTo(l.disk, n, n);
    if n > 0 && n !in l.disk {
      ShiftDropsOldest(pieces, n, n);
      assert Segment(pieces, n) == [];
    } else if n > 0 {
      assert n - 1 in l.disk;
    }
  }

  lemma StepIsThrifty(l: Log, pieces: map<nat, seq<Bytes>>, history: seq<Bytes>, e: Event)
    returns (now: map<nat, seq<Bytes>>)
    requires Thrifty(l, pieces, history)
    ensures Thrifty(Step(l, e), now, history + if e.Write? && l.isOpen then Piece(e.p) else [])
  {
    now := pieces;
    assert history + [] == history;
    if e.Write? && l.isOpen {
      if l.size > 0 && l.size + |e.p| > l.maxSize {
        now := RotatingWriteIsThrifty(l, pieces, history, e.p);
      } else {
        now := PlainWriteIsThrifty(l, pieces, history, e.p);
      }
    }
  }

  lemma PlainWriteIsThrifty(l: Log, pieces: map<nat, seq<Bytes>>, history: seq<Bytes>, p: Bytes)
    returns (now: map<nat, seq<Bytes>>)
    requires Thrifty(l, pieces, history) && l.isOpen && !(l.size > 0 && l.size + |p| > l.maxSize)
    ensures Thrifty(Appended(l, p), now, history + Piece(p))
  {
    AppendConserves(l, pieces, history, p);
    AppendFills(l, pieces, p);
    AppendToBase(pieces, l.maxBackups, Piece(p));
    now := pieces[0 := pieces[0] + Piece(p)];
  }

  lemma RotatedBase<T>(m: map<nat, seq<T>>, n: nat, tail: seq<T>)
    ensures 0 in Shifted(m, n) && Shifted(m, n)[0] == [] && Shifted(m, n)[0] + tail == tail
  {
    assert At(Shifted(m, n), 0) == ShiftedTo(m, n, 0);
  }

  lemma RotatingWriteConserves(l: Log, pieces: map<nat, seq<Bytes>>, history: seq<Bytes>, p: Bytes)
    requires Conserves(l, pieces, history) && l.isOpen && l.size > 0 && l.size + |p| > l.maxSize
    ensures Conserves(Appended(l, p), Shifted(pieces, l.maxBackups)[0 := Piece(p)], history + Piece(p))
  {
    RotationConserves(l, pieces, history);
    RotatedBase(pieces, l.maxBackups, Piece(p));
    var r, q := l.(disk := Shifted(l.disk, l.maxBackups), size := 0), Shifted(pieces, l.maxBackups);
    AppendConserves(r, q, history, p);
  }

  lemma RotatingWriteKeepsWhatFits(l: Log, pieces: map<nat, seq<Bytes>>, history: seq<Bytes>, p: Bytes)
    requires 0 in l.disk && MadeOf(l.disk, pieces) && Filled(l, pieces) && KeepsWhatFits(l, pieces, history)
    ensures KeepsWhatFits(l.(disk := Shifted(l.disk, l.maxBackups)[0 := p], size := |p|),
                          Shifted(pieces, l.maxBackups)[0 := Piece(p)], history + Piece(p))
  {
    RotationKeepsWhatFits(l, pieces, history);
    RotatedBase(pieces, l.maxBackups, Piece(p));
    AppendToBase(Shifted(pieces, l.maxBackups), l.maxBackups, Piece(p));
  }

  lemma RotatingWriteIsThrifty(l: Log, pieces: map<nat, seq<Bytes>>, history: seq<Bytes>, p: Bytes)
    returns (now: map<nat, seq<Bytes>>)
    requires Thrifty(l, pieces, history) && l.isOpen && l.size > 0 && l.size + |p| > l.maxSize
    ensures Thrifty(Appended(l, p), now, history + Piece(p))
  {
    now := Shifted(pieces, l.maxBackups)[0 := Piece(p)];
    RotatingWriteConserves(l, pieces, history, p);
    RotatingWriteKeepsWhatFits(l, pieces, history, p);
    RotationFills(l, pieces, p);
    RotatedBase(l.disk, l.maxBackups, p);
  }

  lemma {:induction false} RunFromIsThrifty(l: Log, pieces: map<nat, seq<Bytes>>, history: seq<Bytes>,
                                            events: seq<Event>)
    returns (now: map<nat, seq<Bytes>>)
    requires Thrifty(l, pieces, history)
    ensures Thrifty(Run(l, events), now, history + Accepted(l.isOpen, events))
  {
    if events == [] {
      now := pieces;
      assert history + [] == history;
    } else {
      var front, e := events[..|events| - 1], events[|events| - 1];
      now := RunFromIsThrifty(l, pieces, history, front);
      now := StepIsThrifty(Run(l, front), now, history + Accepted(l.isOpen, front), e);
      RunLast(l, history, events);
    }
  }

  lemma RunLast(l: Log, history: seq<Bytes>, events: seq<Event>)
    requires 0 in l.disk && events != []
    ensures var front, e := events[..|events| - 1], events[|events| - 1];
            && Run(l, events) == Step(Run(l, front), e)
            && history + Accepted(l.isOpen, events)
               == history + Accepted(l.isOpen, front) + if e.Write? && Run(l, front).isOpen then Piece(e.p) else []
  {
    var front, e := events[..|events| - 1], events[|events| - 1];
    OpenFlag(l, front);
    assert events == front + [e];
    AcceptedLast(history, l.isOpen, front, e, events);
  }

  lemma {:induction false} NothingYet(n: nat)
    ensures OldestFirst(InitialPieces(Opened(map[])), n) == []
  {
    if n > 0 {
      NothingYet(n - 1);
    }
  }

  /**
   How much is kept, over every run that starts in an empty directory: everything, or else all backups are in use; and
   each backup together with the segment after it is longer than the limit.
   */
  lemma RunKeepsWhatFits(maxSize: int, maxBackups: int, events: seq<Event>)
    ensures var l := Run(NewLog(map[], maxSize, maxBackups), events);
            && (OldestFirst(l.disk, l.maxBackups) == Concat(Accepted(true, events))
                || forall i: nat :: i <= l.maxBackups ==> i in l.disk)
            && (forall i: nat :: i < l.maxBackups && i + 1 in l.disk ==>
                  i in l.disk && |l.disk[i + 1]| + |l.disk[i]| > l.maxSize)
  {
    var l := NewLog(map[], maxSize, maxBackups);
    InitialConserves(l);
    NothingYet(l.maxBackups);
    var now := RunFromIsThrifty(l, InitialPieces(l.disk), [], events);
    assert [] + Accepted(true, events) == Accepted(true, events);
    var r := Run(l, events);
    ConcatOldestFirst(r.disk, now, r.maxBackups);
    forall i: nat | i < r.maxBackups && i + 1 in r.disk
      ensures i in r.disk && |r.disk[i + 1]| + |r.disk[i]| > r.maxSize
    {
      HeadFits(now[i]);
    }
    if r.maxBackups in r.disk {
      AllInUse(r, now, r.maxBackups);
    }
  }

  lemma HeadFits(pieces: seq<Bytes>)
    ensures HeadLength(pieces) <= |Concat(pieces)|
  {
  }

  lemma {:induction false} AllInUse(l: Log, pieces: map<nat, seq<Bytes>>, n: nat)
    requires Filled(l, pieces) && n in l.disk && n <= l.maxBackups
    ensures forall i: nat :: i <= n ==> i in l.disk
  {
    if n > 0 {
      assert n - 1 + 1 in l.disk;
      AllInUse(l, pieces, n - 1);
    }
  }

  // ---- the object: a file handle, its tracked size and the directory it renames in

  class Rotator {
    const maxSize: nat
    const maxBackups: nat
    var isOpen: bool
    var size: nat
    var disk: map<nat, Bytes>

    ghost predicate Valid()
      reads this
    {
      0 in disk
    }

    function State(): Log
      reads this
    {
      Log(maxSize, maxBackups, isOpen, size, disk)
    }

    constructor (directory: map<nat, Bytes>, maxSize: int, maxBackups: int)
      ensures Valid() && State() == NewLog(directory, maxSize, maxBackups)
    {
      this.maxSize := if maxSize <= 0 then DEFAULT_MAX_SIZE else maxSize;
      this.maxBackups := if maxBackups < 0 then 0 else maxBackups;
      var d := Opened(directory);
      this.disk := d;
      this.size := |d[0]|;
      this.isOpen := true;
    }

    /** Renames one segment over another; renaming a missing one changes nothing. */
    method Rename(from: nat, to: nat)
      requires from != to
      modifies this`disk
      ensures forall j: nat :: At(disk, j) ==
                if from !in old(disk) then At(old(disk), j)
                else if j == to then At(old(disk), from) else if j == from then None else At(old(disk), j)
    {
      if from in disk {
        disk := (disk - {from})[to := disk[from]];
      }
    }

    method Rotate()
      requires Valid()
      modifies this`size, this`disk
      ensures Valid() && size == 0
      ensures disk == Shifted(old(disk), maxBackups)
    {
      ghost var was := disk;
      if maxBackups > 0 {
        ShiftBackups();
      }
      disk := disk[0 := []];
      size := 0;
      ShiftIsDetermined(was, maxBackups, disk);
    }

    /** Drops the oldest backup and renames i to i + 1 from the top down to the base. */
    method ShiftBackups()
      requires Valid() && maxBackups > 0
      modifies this`disk
      ensures forall j: nat :: j > 0 ==> At(disk, j) == ShiftedTo(old(disk), maxBackups, j)
    {
      ghost var was := disk;
      disk := disk - {maxBackups};
      var i := maxBackups - 1;
      while i >= 1
        invariant 0 <= i < maxBackups
        invariant At(disk, i + 1) == None
        invariant forall j: nat :: j <= i || j > maxBackups ==> At(disk, j) == At(was, j)
        invariant forall j: nat :: i + 1 < j <= maxBackups ==> At(disk, j) == At(was, j - 1)
      {
        Rename(i, i + 1);
        i := i - 1;
      }
      assert At(disk, 0) == At(was, 0);
      Rename(0, 1);
    }

    method Write(p: Bytes)
      requires Valid()
      modifies this`size, this`disk
      ensures Valid() && State() == Step(old(State()), Event.Write(p))
    {
      if !isOpen {
        return;
      }
      if size > 0 && size + |p| > maxSize {
        Rotate();
      }
      disk := disk[0 := disk[0] + p];
      size := size + |p|;
    }

    method Close()
      requires Valid()
      modifies this`isOpen
      ensures Valid() && State() == Step(old(State()), Event.Close)
    {
      isOpen := false;
    }

    method Reopen()
      requires Valid()
      modifies this`isOpen, this`size
      ensures Valid() && State() == Step(old(State()), Event.Reopen)
    {
      isOpen := true;
      size := |disk[0]|;
    }
  }
}
