/** The incremental reader of the adaptation audit log (benchmarks/experiment.py): whatever the
    writer appends between and during polls, every complete line is collected once, in order. */
module AuditReader {
  import opened Types

  type byte = x: int | 0 <= x < 256

  const NEWLINE: byte := 10

  type Bytes = seq<byte>

  // ---- lines --------------------------------------------------------------------------------------

  /** The length of the first line with its newline; of everything, if there is none. */
  function LineLength(d: Bytes): (n: nat)
    ensures n <= |d| && (d != [] ==> n > 0)
  {
    if d == [] then 0 else if d[0] == NEWLINE then 1 else 1 + LineLength(d[1..])
  }

  /** One newline, at the end. */
  predicate IsLine(l: Bytes) {
    l != [] && l[|l| - 1] == NEWLINE && NEWLINE !in l[..|l| - 1]
  }

  /** The first line is a prefix of the data, whatever follows it. */
  lemma {:induction false} LineLengthOf(l: Bytes, rest: Bytes)
    requires IsLine(l)
    ensures LineLength(l + rest) == |l| && NEWLINE in l + rest
    decreases |l|
  {
    var d := l + rest;
    assert d[|l| - 1] == NEWLINE;
    if |l| > 1 {
      assert l[0] == l[..|l| - 1][0];
      assert d[1..] == l[1..] + rest;
      assert l[1..][..|l| - 2] == l[..|l| - 1][1..];
      LineLengthOf(l[1..], rest);
    }
  }

  lemma {:induction false} FirstLine(d: Bytes)
    ensures NEWLINE in d ==> IsLine(d[..LineLength(d)])
    ensures NEWLINE !in d ==> LineLength(d) == |d|
    decreases |d|
  {
    if d != [] && d[0] != NEWLINE {
      var n := LineLength(d[1..]);
      FirstLine(d[1..]);
      if NEWLINE in d {
        assert NEWLINE in d[1..];
        var l := d[1..][..n];
        assert d[..n + 1] == [d[0]] + l;
        assert ([d[0]] + l)[..n] == [d[0]] + l[..n - 1];
      }
    }
  }

  /** The complete lines of the data, newlines included. */
  function Lines(d: Bytes): seq<Bytes>
    decreases |d|
  {
    if NEWLINE !in d then [] else [d[..LineLength(d)]] + Lines(d[LineLength(d)..])
  }

  /** What follows the last newline. */
  function Tail(d: Bytes): (t: Bytes)
    ensures |t| <= |d|
    decreases |d|
  {
    if NEWLINE !in d then d else Tail(d[LineLength(d)..])
  }

  function Flatten(lines: seq<Bytes>): Bytes {
    if lines == [] then [] else lines[0] + Flatten(lines[1..])
  }

  ghost predicate AllLines(lines: seq<Bytes>) {
    forall i :: 0 <= i < |lines| ==> IsLine(lines[i])
  }

  lemma OneLineMore(l: Bytes, rest: seq<Bytes>, tail: Bytes)
    ensures IsLine(l) && AllLines(rest) ==> AllLines([l] + rest)
    ensures Flatten([l] + rest) + tail == l + (Flatten(rest) + tail)
  {
    assert ([l] + rest)[1..] == rest;
    hide IsLine;
  }

  lemma UnfoldLines(d: Bytes)
    ensures NEWLINE in d ==> Lines(d) == [d[..LineLength(d)]] + Lines(d[LineLength(d)..])
    ensures NEWLINE in d ==> Tail(d) == Tail(d[LineLength(d)..])
    ensures NEWLINE !in d ==> Lines(d) == [] && Tail(d) == d
  {
    hide LineLength;
  }

  lemma NoLines(d: Bytes)
    ensures AllLines([]) && Flatten([]) + d == d
  {
  }

  /** Lines cut the data exactly: nothing is lost, every line is one, the tail is none. */
  lemma {:induction false} LinesCut(d: Bytes)
    ensures Flatten(Lines(d)) + Tail(d) == d
    ensures AllLines(Lines(d)) && NEWLINE !in Tail(d)
    decreases |d|
  {
    hide IsLine, AllLines, LineLength, Lines, Tail, Flatten;
    UnfoldLines(d);
    if NEWLINE in d {
      var n := LineLength(d);
      FirstLine(d);
      LinesCut(d[n..]);
      OneLineMore(d[..n], Lines(d[n..]), Tail(d));
      assert d[..n] + d[n..] == d;
    } else {
      NoLines(d);
    }
  }

  /** The cut is unique: complete lines followed by an unfinished one are what `Lines` finds. */
  lemma {:induction false} LinesUnique(lines: seq<Bytes>, tail: Bytes)
    requires AllLines(lines) && NEWLINE !in tail
    ensures Lines(Flatten(lines) + tail) == lines && Tail(Flatten(lines) + tail) == tail
    decreases |lines|
  {
    if lines == [] {
      assert Flatten(lines) + tail == tail;
    } else {
      hide IsLine;
      var rest := Flatten(lines[1..]) + tail;
      var d := Flatten(lines) + tail;
      assert d == lines[0] + rest;
      LineLengthOf(lines[0], rest);
      assert d[..|lines[0]|] == lines[0] && d[|lines[0]|..] == rest;
      LinesUnique(lines[1..], tail);
    }
  }

  /** New data continues the unfinished tail. */
  lemma {:induction false} LinesAppend(a: Bytes, b: Bytes)
    ensures Lines(a + b) == Lines(a) + Lines(Tail(a) + b)
    ensures Tail(a + b) == Tail(Tail(a) + b)
    decreases |a|
  {
    if NEWLINE in a {
      hide IsLine;
      var n := LineLength(a);
      FirstLine(a);
      assert a + b == a[..n] + (a[n..] + b);
      LineLengthOf(a[..n], a[n..] + b);
      assert (a + b)[..n] == a[..n] && (a + b)[n..] == a[n..] + b;
      LinesAppend(a[n..], b);
      assert [a[..n]] + (Lines(a[n..]) + Lines(Tail(a) + b)) == [a[..n]] + Lines(a[n..]) + Lines(Tail(a) + b);
    }
  }

  lemma {:induction false} TailLength(d: Bytes)
    ensures d[|d| - |Tail(d)|..] == Tail(d)
    decreases |d|
  {
    if NEWLINE in d {
      var n := LineLength(d);
      TailLength(d[n..]);
      assert d[n..][|d[n..]| - |Tail(d)|..] == d[|d| - |Tail(d)|..];
    }
  }

  // ---- the poller ---------------------------------------------------------------------------------

  datatype File = File(inode: int, bytes: Bytes)

  /** A line that is no JSON value is kept as an observation error. */
  datatype AuditEvent = Parsed(line: Bytes) | Malformed(raw: Bytes)

  function ToEvents(lines: seq<Bytes>, isJson: Bytes -> bool): (r: seq<AuditEvent>)
    ensures |r| == |lines|
    ensures forall i :: 0 <= i < |r| ==> r[i] == if isJson(lines[i]) then Parsed(lines[i]) else Malformed(lines[i])
  {
    seq(|lines|, i requires 0 <= i < |lines| =>
      if isJson(lines[i]) then Parsed(lines[i]) else Malformed(lines[i]))
  }

  datatype Poller = Poller(offset: nat, inode: Option<int>, lines: seq<Bytes>)

  function Begin(f: Option<File>): Poller {
    if f.None? then Poller(0, None, []) else Poller(|f.value.bytes|, Some(f.value.inode), [])
  }

  /** Where a poll starts to read: at the saved offset, or at 0 in another or shorter file. */
  function Start(p: Poller, f: File): nat {
    if p.inode != Some(f.inode) || |f.bytes| < p.offset then 0 else p.offset
  }

  /** One poll: `f` is what the stat call saw, `late` was appended before the read. */
  function Poll(p: Poller, f: File, late: Bytes): Poller {
    var unread := (f.bytes + late)[Start(p, f)..];
    Poller(Start(p, f) + |unread| - |Tail(unread)|, Some(f.inode), p.lines + Lines(unread))
  }

  /** What the next line read says about the unread data. */
  lemma NextLine(lines: seq<Bytes>, unread: Bytes)
    requires unread != []
    ensures var n := LineLength(unread);
      if unread[n - 1] == NEWLINE
      then lines + Lines(unread) == lines + [unread[..n]] + Lines(unread[n..])
           && Tail(unread) == Tail(unread[n..])
      else Lines(unread) == [] && Tail(unread) == unread
  {
    hide LineLength;
    var n := LineLength(unread);
    FirstLine(unread);
    if unread[n - 1] == NEWLINE {
      Associative(lines, unread[..n], Lines(unread[n..]));
    }
  }

  lemma NothingRead()
    ensures Lines([]) == [] && Tail([]) == []
  {
  }

  lemma Associative(lines: seq<Bytes>, line: Bytes, rest: seq<Bytes>)
    ensures lines + ([line] + rest) == lines + [line] + rest
  {
  }

  class Collector {
    const isJson: Bytes -> bool
    var offset: nat
    var inode: Option<int>
    var events: seq<AuditEvent>
    ghost var lines: seq<Bytes>

    ghost predicate Valid()
      reads this`events, this`lines
    {
      events == ToEvents(lines, isJson)
    }

    ghost function View(): Poller
      reads this
    {
      Poller(offset, inode, lines)
    }

    constructor (f: Option<File>, isJson: Bytes -> bool)
      ensures Valid() && View() == Begin(f) && this.isJson == isJson
    {
      this.isJson := isJson;
      offset := if f.Some? then |f.value.bytes| else 0;
      inode := if f.Some? then Some(f.value.inode) else None;
      events, lines := [], [];
    }

    /** `collect_audit`: read line by line, and stop before a line without its newline. */
    method CollectAudit(f: Option<File>, late: Bytes)
      requires Valid()
      modifies this
      ensures Valid()
      ensures View() == if f.None? then old(View()) else Poll(old(View()), f.value, late)
      ensures old(events) <= events
    {
      hide ToEvents, Lines, Tail, LineLength, Valid;
      NothingRead();
      if f.None? { return; }
      if Some(f.value.inode) != inode || |f.value.bytes| < offset { offset := 0; }
      inode := Some(f.value.inode);
      var data := f.value.bytes + late;
      var unread := data[offset..];
      ghost var p := View();
      ghost var all := unread;
      while unread != []
        invariant Valid() && old(events) <= events
        invariant inode == p.inode && offset == p.offset + |all| - |unread|
        invariant p.lines + Lines(all) == lines + Lines(unread)
        invariant Tail(all) == Tail(unread)
        decreases |unread|
      {
        NextLine(lines, unread);
        var n := LineLength(unread);
        var line := unread[..n];
        if line[n - 1] != NEWLINE { return; }
        offset := offset + n;
        unread := unread[n..];
        Keep(line);
      }
    }

    method Keep(line: Bytes)
      requires Valid()
      modifies this`events, this`lines
      ensures Valid() && lines == old(lines) + [line] && old(events) <= events
    {
      events := events + [if isJson(line) then Parsed(line) else Malformed(line)];
      lines := lines + [line];
    }
  }

  // ---- runs -----------------------------------------------------------------------------------------

  /** The writer appends, replaces the file, or the poller polls. */
  datatype Event = Append(more: Bytes) | Replace(file: File) | Look(late: Bytes)

  datatype World = World(file: File, poller: Poller)

  function Step(w: World, e: Event): World {
    match e
    case Append(more) => w.(file := w.file.(bytes := w.file.bytes + more))
    case Replace(f) => w.(file := f)
    case Look(late) =>
      World(w.file.(bytes := w.file.bytes + late), Poll(w.poller, w.file, late))
  }

  function Steps(w: World, es: seq<Event>): World
    decreases |es|
  {
    if es == [] then w else Steps(Step(w, es[0]), es[1..])
  }

  predicate NoReplace(es: seq<Event>) {
    forall i :: 0 <= i < |es| ==> !es[i].Replace?
  }

  /** All of the first `polled` bytes from `start` on are collected, up to an unfinished line. */
  ghost predicate Collected(w: World, before: seq<Bytes>, start: nat, polled: nat) {
    && start <= w.poller.offset <= polled <= |w.file.bytes|
    && w.poller.inode == Some(w.file.inode)
    && w.poller.lines == before + Lines(w.file.bytes[start..polled])
    && w.file.bytes[w.poller.offset..polled] == Tail(w.file.bytes[start..polled])
  }

  lemma PollCollects(w: World, before: seq<Bytes>, start: nat, polled: nat, late: Bytes)
    requires Collected(w, before, start, polled)
    ensures Collected(Step(w, Look(late)), before, start, |Step(w, Look(late)).file.bytes|)
  {
    hide Lines, Tail;
    var f, data := w.file.bytes, w.file.bytes + late;
    var a, b := f[start..polled], data[polled..];
    var unread := data[w.poller.offset..];
    assert unread == Tail(a) + b by { assert unread == f[w.poller.offset..polled] + b; }
    assert data[start..|data|] == a + b;
    LinesAppend(a, b);
    TailLength(unread);
    assert data[|data| - |Tail(unread)|..|data|] == unread[|unread| - |Tail(unread)|..];
    assert before + Lines(a) + Lines(unread) == before + (Lines(a) + Lines(unread));
  }

  lemma {:induction false} RunCollects(w: World, before: seq<Bytes>, start: nat, polled: nat, es: seq<Event>)
    returns (polled': nat)
    requires Collected(w, before, start, polled) && NoReplace(es)
    ensures Collected(Steps(w, es), before, start, polled')
    ensures w.file.bytes <= Steps(w, es).file.bytes && w.file.inode == Steps(w, es).file.inode
    decreases |es|
  {
    polled' := polled;
    if es != [] {
      assert !es[0].Replace?;
      var w1 := Step(w, es[0]);
      if es[0].Look? {
        PollCollects(w, before, start, polled, es[0].late);
        polled' := |w1.file.bytes|;
      } else {
        assert w1.file.bytes[start..polled] == w.file.bytes[start..polled];
        assert w1.file.bytes[w.poller.offset..polled] == w.file.bytes[w.poller.offset..polled];
      }
      hide Collected, Step;
      polled' := RunCollects(w1, before, start, polled', es[1..]);
    }
  }

  /** For any appends and polls, in any order, that end with a poll: the collector has exactly
      the complete lines that follow the place where it began. */
  lemma CollectsEveryLine(file: File, es: seq<Event>, late: Bytes)
    requires NoReplace(es)
    ensures var w := Step(Steps(World(file, Begin(Some(file))), es), Look(late));
      && file.bytes <= w.file.bytes
      && w.poller.lines == Lines(w.file.bytes[|file.bytes|..])
      && w.poller.offset + |Tail(w.file.bytes[|file.bytes|..])| == |w.file.bytes|
  {
    var n := |file.bytes|;
    var w0 := World(file, Begin(Some(file)));
    assert file.bytes[n..n] == [];
    var polled := RunCollects(w0, [], n, n, es);
    var w1 := Steps(w0, es);
    PollCollects(w1, [], n, polled, late);
    var w := Step(w1, Look(late));
    assert w.file.bytes[n..|w.file.bytes|] == w.file.bytes[n..];
  }

  /** A poll that finds another file starts over: all its complete lines follow what was
      collected before. So does the first poll after a start without a log. */
  lemma RotationStartsOver(w: World, first: Bytes, es: seq<Event>, late: Bytes)
    requires w.poller.inode != Some(w.file.inode) && NoReplace(es)
    ensures var w' := Step(Steps(Step(w, Look(first)), es), Look(late));
      w.file.bytes + first <= w'.file.bytes && w'.poller.lines == w.poller.lines + Lines(w'.file.bytes)
  {
    var w1 := Step(w, Look(first));
    var data := w.file.bytes + first;
    assert data[0..] == data && data[0..|data|] == data;
    TailLength(data);
    assert data[w1.poller.offset..|data|] == data[w1.poller.offset..];
    var polled := RunCollects(w1, w.poller.lines, 0, |data|, es);
    var w2 := Steps(w1, es);
    PollCollects(w2, w.poller.lines, 0, polled, late);
    var w' := Step(w2, Look(late));
    assert w'.file.bytes[0..|w'.file.bytes|] == w'.file.bytes;
  }

  /** Reading from inside the data finds other lines than reading all of it, unless there are
      none to find. */
  lemma {:induction false} SkippedLines(d: Bytes, n: nat)
    requires 0 < n <= |d| && NEWLINE in d
    ensures Lines(d[n..]) != Lines(d)
  {
    hide IsLine, Lines, Tail;
    var a, b := d[..n], d[n..];
    assert d == a + b;
    LinesAppend(a, b);
    LinesOfNone(a);
    LinesOfNone(b);
    LinesOfNone(d);
    if NEWLINE !in a && NEWLINE in b {
      FirstLine(b);
      var l, rest := b[..LineLength(b)], b[LineLength(b)..];
      assert b == l + rest && d == (a + l) + rest;
      LineExtends(a, l);
      LineLengthOf(a + l, rest);
      FirstOfLines(d);
      FirstOfLines(b);
      assert d[..|a + l|] == a + l;
      assert |Lines(d)[0]| == |a| + |Lines(b)[0]|;
    } else if NEWLINE in a {
      assert |Lines(d)| == |Lines(a)| + |Lines(Tail(a) + b)|;
      LinesCount(Tail(a), b);
    }
  }

  lemma LinesOfNone(d: Bytes)
    ensures Lines(d) == [] <==> NEWLINE !in d
    ensures NEWLINE !in d ==> Tail(d) == d
  {
  }

  lemma FirstOfLines(d: Bytes)
    requires NEWLINE in d
    ensures Lines(d) != [] && Lines(d)[0] == d[..LineLength(d)]
  {
  }

  lemma LineExtends(a: Bytes, l: Bytes)
    requires NEWLINE !in a && IsLine(l)
    ensures IsLine(a + l)
  {
    assert (a + l)[..|a + l| - 1] == a + l[..|l| - 1];
  }

  /** A newline-free prefix lengthens the first line and adds none. */
  lemma {:induction false} LinesCount(a: Bytes, b: Bytes)
    ensures |Lines(a + b)| >= |Lines(b)|
    decreases |a|
  {
    if a == [] { assert a + b == b; }
    else if NEWLINE in b {
      OneMoreByte(a[0], a[1..] + b);
      assert [a[0]] + (a[1..] + b) == a + b;
      LinesCount(a[1..], b);
    }
  }

  lemma {:induction false} OneMoreByte(x: byte, d: Bytes)
    ensures |Lines([x] + d)| >= |Lines(d)|
  {
    var all := [x] + d;
    assert all[1..] == d;
    if NEWLINE in d {
      assert NEWLINE in all by { assert all == [x] + d; }
      if x == NEWLINE { assert all[1..] == d; }
      else { assert all[LineLength(all)..] == d[LineLength(d)..]; }
    }
  }

  /** A poll of a file that replaced the log collects all its complete lines exactly when it
      starts over or there is none; it starts over when the inode differs, the file is shorter
      than the offset, or nothing was read before. */
  lemma ReplacementIsNoticed(p: Poller, f: File)
    ensures Poll(p, f, []).lines == p.lines + Lines(f.bytes) <==>
              p.inode != Some(f.inode) || |f.bytes| < p.offset || p.offset == 0 || NEWLINE !in f.bytes
  {
    hide Lines, Tail;
    var d, n := f.bytes, Start(p, f);
    assert d + [] == d;
    assert d[0..] == d;
    if n != 0 {
      if NEWLINE in d { SkippedLines(d, n); }
      else {
        assert NEWLINE !in d[n..];
        LinesOfNone(d);
        LinesOfNone(d[n..]);
      }
      if p.lines + Lines(d[n..]) == p.lines + Lines(d) {
        assert (p.lines + Lines(d[n..]))[|p.lines|..] == (p.lines + Lines(d))[|p.lines|..];
      }
    }
  }

  /** A truncated log that grew past the offset again loses lines. */
  lemma RegrownLogIsMissed() returns (p: Poller, f: File)
    ensures p.inode == Some(f.inode) && Lines(f.bytes) == [[1, NEWLINE], [2, NEWLINE]]
    ensures p.lines == [] && Poll(p, f, []).lines == [[2, NEWLINE]]
  {
    p := Poller(2, Some(7), []);
    f := File(7, [1, NEWLINE, 2, NEWLINE]);
    var b: Bytes := [2, NEWLINE];
    assert LineLength(b) == 2 && b[2..] == [] && b[..2] == b;
    assert f.bytes[2..] == b && LineLength(f.bytes) == 2 && f.bytes[..2] == [1, NEWLINE];
    assert f.bytes + [] == f.bytes;
    assert Lines(b) == [b];
  }
}
