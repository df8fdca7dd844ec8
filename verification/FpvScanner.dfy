// The FPV receiver's stream: ASCII alarm lines, command replies and fixed-size binary frames, read
// from TCP in arbitrary pieces. Models ingestBuffer, its helpers and the buffer handling of
// handleConnection in internal/fpv/service.go.
module FpvScanner {
  import opened Bytes

  datatype Event =
    | Alarm(line: seq<Byte>)      // ingestASCII
    | Reply(line: seq<Byte>)      // ingestCommandResponse
    | Frame8(frame: seq<Byte>)    // ingestFormat4
    | Frame16(frame: seq<Byte>)   // ingestFormat5

  predicate IsLineEnd(b: Byte) { b == 0x0d || b == 0x0a }
  predicate IsSeparator(b: Byte) { IsLineEnd(b) || b == 0x20 || b == 0x09 }
  predicate StartsAlarm(b: Byte) { b == 0x46 || b == 0x24 }       // F $
  predicate StartsReply(b: Byte) { b == 0x4f || b == 0x45 }       // O E
  predicate StartsLine(b: Byte) { StartsAlarm(b) || StartsReply(b) }
  predicate StartsFrame(b: Byte) { StartsAlarm(b) || b == 0xfe || b == 0x1f }

  // First line end in `b`, or -1.
  function LineEnd(b: seq<Byte>): (e: int)
    ensures -1 <= e < |b|
    ensures e >= 0 ==> IsLineEnd(b[e])
    ensures forall i | 0 <= i < |b| && IsLineEnd(b[i]) :: 0 <= e <= i
  {
    if b == [] then -1
    else if IsLineEnd(b[0]) then 0
    else
      var e := LineEnd(b[1..]);
      if e < 0 then -1 else e + 1
  }

  lemma LineEndStable(a: seq<Byte>, b: seq<Byte>)
    requires LineEnd(a) >= 0
    ensures LineEnd(a + b) == LineEnd(a)
  {
    var e, e' := LineEnd(a), LineEnd(a + b);
    assert (a + b)[e] == a[e];
    assert (a + b)[e'] == a[e'];
  }

  datatype Scanned = Scanned(events: seq<Event>, rest: seq<Byte>)

  function Prepend(e: Event, s: Scanned): Scanned { Scanned([e] + s.events, s.rest) }

  function LineEvent(line: seq<Byte>): Event
    requires line != []
  {
    if StartsAlarm(line[0]) then Alarm(line) else Reply(line)
  }

  function FrameSize(b: Byte): nat { if b == 0xfe then 8 else 16 }

  function FrameEvent(frame: seq<Byte>): Event { if |frame| == 8 then Frame8(frame) else Frame16(frame) }

  // What the scanner delivers from a buffer, and what it keeps.
  function Scan(b: seq<Byte>): (s: Scanned)
    ensures |s.rest| <= |b|
    decreases |b|, 1
  {
    if b == [] then Scanned([], [])
    else if IsSeparator(b[0]) then Scan(b[1..])
    else if StartsLine(b[0]) then
      var e := LineEnd(b);
      if e < 0 then Scanned([], b) else Prepend(LineEvent(b[..e]), Scan(b[e..]))
    else if StartsFrame(b[0]) then
      var n := FrameSize(b[0]);
      if |b| < n then Scanned([], b) else Prepend(FrameEvent(b[..n]), Scan(b[n..]))
    else Resync(b[1..])
  }

  // After junk: everything up to the next alarm or frame start is dropped, replies included.
  function Resync(b: seq<Byte>): (s: Scanned)
    ensures |s.rest| <= |b|
    decreases |b|, 2
  {
    if b == [] then Scanned([], [])
    else if StartsFrame(b[0]) then Scan(b)
    else Resync(b[1..])
  }

  // No 'O' or 'E' is dropped while resynchronising.
  predicate Clean(b: seq<Byte>)
    decreases |b|, 1
  {
    if b == [] then true
    else if IsSeparator(b[0]) then Clean(b[1..])
    else if StartsLine(b[0]) then LineEnd(b) < 0 || Clean(b[LineEnd(b)..])
    else if StartsFrame(b[0]) then |b| < FrameSize(b[0]) || Clean(b[FrameSize(b[0])..])
    else CleanResync(b[1..])
  }

  predicate CleanResync(b: seq<Byte>)
    decreases |b|, 2
  {
    if b == [] then true
    else if StartsFrame(b[0]) then Clean(b)
    else !StartsReply(b[0]) && CleanResync(b[1..])
  }

  // Reading `more` after a first scan.
  function Resume(first: Scanned, more: seq<Byte>): Scanned {
    var second := Scan(first.rest + more);
    Scanned(first.events + second.events, second.rest)
  }

  lemma ResumePrepend(e: Event, first: Scanned, more: seq<Byte>)
    ensures Resume(Prepend(e, first), more) == Prepend(e, Resume(first, more))
  {
    var second := Scan(first.rest + more);
    assert ([e] + first.events) + second.events == [e] + (first.events + second.events);
  }

  lemma PrependInjective(e: Event, a: Scanned, b: Scanned)
    requires Prepend(e, a) == Prepend(e, b)
    ensures a == b
  {
    assert ([e] + a.events)[1..] == a.events && ([e] + b.events)[1..] == b.events;
  }

  lemma ResumeNothing(b: seq<Byte>)
    ensures Resume(Scanned([], []), b) == Scan(b)
  {
    assert [] + b == b;
  }

  // ---- sufficiency ----

  lemma {:induction false} ResyncIsScan(b: seq<Byte>)
    requires CleanResync(b)
    ensures Resync(b) == Scan(b) && Clean(b)
    decreases |b|
  {
    if b != [] && !StartsFrame(b[0]) {
      ResyncIsScan(b[1..]);
    }
  }

  lemma {:induction false} ScanSplit(a: seq<Byte>, b: seq<Byte>)
    requires Clean(a + b)
    ensures Scan(a + b) == Resume(Scan(a), b)
    ensures Clean(a) && Clean(Scan(a).rest + b)
    decreases |a|, 1
  {
    if a == [] {
      assert a + b == b;
      ResumeNothing(b);
    } else if IsSeparator(a[0]) {
      assert (a + b)[1..] == a[1..] + b;
      ScanSplit(a[1..], b);
    } else if StartsLine(a[0]) {
      SplitLine(a, b);
    } else if StartsFrame(a[0]) {
      SplitFrame(a, b);
    } else {
      assert (a + b)[1..] == a[1..] + b;
      ResyncSplit(a[1..], b);
    }
  }

  lemma {:induction false} SplitLine(a: seq<Byte>, b: seq<Byte>)
    requires Clean(a + b) && a != [] && !IsSeparator(a[0]) && StartsLine(a[0])
    ensures Scan(a + b) == Resume(Scan(a), b)
    ensures Clean(a) && Clean(Scan(a).rest + b)
    decreases |a|, 0
  {
    var e := LineEnd(a);
    if e >= 0 {
      LineEndStable(a, b);
      assert (a + b)[..e] == a[..e] && (a + b)[e..] == a[e..] + b;
      ScanSplit(a[e..], b);
      ResumePrepend(LineEvent(a[..e]), Scan(a[e..]), b);
    }
  }

  lemma {:induction false} SplitFrame(a: seq<Byte>, b: seq<Byte>)
    requires Clean(a + b) && a != [] && !IsSeparator(a[0]) && !StartsLine(a[0]) && StartsFrame(a[0])
    ensures Scan(a + b) == Resume(Scan(a), b)
    ensures Clean(a) && Clean(Scan(a).rest + b)
    decreases |a|, 0
  {
    var n := FrameSize(a[0]);
    if n <= |a| {
      assert (a + b)[..n] == a[..n] && (a + b)[n..] == a[n..] + b;
      ScanSplit(a[n..], b);
      ResumePrepend(FrameEvent(a[..n]), Scan(a[n..]), b);
    }
  }

  lemma {:induction false} ResyncSplit(a: seq<Byte>, b: seq<Byte>)
    requires CleanResync(a + b)
    ensures Resync(a + b) == Resume(Resync(a), b)
    ensures CleanResync(a) && Clean(Resync(a).rest + b)
    decreases |a|, 2
  {
    if a == [] {
      assert a + b == b && [] + b == b;
      ResyncIsScan(b);
      ResumeNothing(b);
    } else if StartsFrame(a[0]) {
      ScanSplit(a, b);
    } else {
      assert (a + b)[1..] == a[1..] + b;
      ResyncSplit(a[1..], b);
    }
  }

  function ScanChunks(chunks: seq<seq<Byte>>): Scanned {
    if chunks == [] then Scanned([], [])
    else Resume(ScanChunks(chunks[..|chunks| - 1]), chunks[|chunks| - 1])
  }

  lemma {:induction false} CleanStreamChunks(chunks: seq<seq<Byte>>)
    requires Clean(Flatten(chunks))
    ensures ScanChunks(chunks) == Scan(Flatten(chunks))
    decreases |chunks|
  {
    if chunks != [] {
      var init, last := chunks[..|chunks| - 1], chunks[|chunks| - 1];
      FlattenSnoc(init, last);
      assert init + [last] == chunks;
      ScanSplit(Flatten(init), last);
      CleanStreamChunks(init);
    }
  }

  // ---- necessity ----

  lemma {:induction false} ResyncNeverStartsWithReply(b: seq<Byte>)
    ensures Resync(b).events != [] ==> !Resync(b).events[0].Reply?
    decreases |b|
  {
    if b != [] && !StartsFrame(b[0]) {
      ResyncNeverStartsWithReply(b[1..]);
    }
  }

  lemma DroppedReplyShows(b: seq<Byte>)
    requires b != [] && StartsReply(b[0])
    ensures Resync(b) != Resume(Resync([]), b)
  {
    ResumeNothing(b);
    ResyncNeverStartsWithReply(b);
    if LineEnd(b) >= 0 {
      assert Scan(b).events[0] == LineEvent(b[..LineEnd(b)]);
    } else {
      assert |Resync(b).rest| < |b|;
    }
  }

  // Cutting at k makes a difference.
  predicate CutShows(b: seq<Byte>, k: nat) {
    0 < k <= |b| && Scan(b) != Resume(Scan(b[..k]), b[k..])
  }

  predicate CutShowsResync(b: seq<Byte>, k: nat) {
    k <= |b| && Resync(b) != Resume(Resync(b[..k]), b[k..])
  }

  lemma {:induction false} DirtyCut(b: seq<Byte>)
    requires !Clean(b)
    ensures exists k: nat :: CutShows(b, k)
    decreases |b|, 1
  {
    if IsSeparator(b[0]) {
      DirtyCut(b[1..]);
      var k: nat :| CutShows(b[1..], k);
      assert b[..k + 1][1..] == b[1..][..k] && b[k + 1..] == b[1..][k..];
      assert CutShows(b, k + 1);
    } else if StartsLine(b[0]) {
      DirtyLine(b);
    } else if StartsFrame(b[0]) {
      DirtyFrame(b);
    } else {
      DirtyCutResync(b[1..]);
      var k: nat :| CutShowsResync(b[1..], k);
      assert b[..k + 1][1..] == b[1..][..k] && b[k + 1..] == b[1..][k..];
      assert CutShows(b, k + 1);
    }
  }

  lemma CutBehind(e: Event, b: seq<Byte>, n: nat, k: nat)
    requires n + k <= |b| && CutShows(b[n..], k)
    requires Scan(b) == Prepend(e, Scan(b[n..]))
    requires Scan(b[..n + k]) == Prepend(e, Scan(b[..n + k][n..]))
    ensures CutShows(b, n + k)
  {
    var q := b[n + k..];
    assert b[..n + k][n..] == b[n..][..k] && q == b[n..][k..];
    ResumePrepend(e, Scan(b[n..][..k]), q);
    if Scan(b) == Resume(Scan(b[..n + k]), q) {
      PrependInjective(e, Scan(b[n..]), Resume(Scan(b[n..][..k]), q));
      assert false;
    }
  }

  lemma {:induction false} DirtyLine(b: seq<Byte>)
    requires !Clean(b) && !IsSeparator(b[0]) && StartsLine(b[0])
    ensures exists k: nat :: CutShows(b, k)
    decreases |b|, 0
  {
    var e := LineEnd(b);
    DirtyCut(b[e..]);
    var k: nat :| CutShows(b[e..], k);
    var a := b[..e + k];
    assert b == a + b[e + k..] && a[e] == b[e];
    LineEndStable(a, b[e + k..]);
    assert a[..e] == b[..e];
    CutBehind(LineEvent(b[..e]), b, e, k);
  }

  lemma {:induction false} DirtyFrame(b: seq<Byte>)
    requires !Clean(b) && !IsSeparator(b[0]) && !StartsLine(b[0]) && StartsFrame(b[0])
    ensures exists k: nat :: CutShows(b, k)
    decreases |b|, 0
  {
    var n := FrameSize(b[0]);
    DirtyCut(b[n..]);
    var k: nat :| CutShows(b[n..], k);
    assert b[..n + k][..n] == b[..n];
    CutBehind(FrameEvent(b[..n]), b, n, k);
  }

  lemma {:induction false} DirtyCutResync(b: seq<Byte>)
    requires !CleanResync(b)
    ensures exists k: nat :: CutShowsResync(b, k)
    decreases |b|, 2
  {
    if StartsFrame(b[0]) {
      DirtyCut(b);
      var k: nat :| CutShows(b, k);
      assert b[..k][0] == b[0];
      assert CutShowsResync(b, k);
    } else if StartsReply(b[0]) {
      DroppedReplyShows(b);
      assert b[..0] == [] && b[0..] == b;
      assert CutShowsResync(b, 0);
    } else {
      DirtyCutResync(b[1..]);
      var k: nat :| CutShowsResync(b[1..], k);
      assert b[..k + 1][1..] == b[1..][..k] && b[k + 1..] == b[1..][k..];
      assert CutShowsResync(b, k + 1);
    }
  }

  lemma TwoChunks(a: seq<Byte>, b: seq<Byte>)
    ensures Flatten([a, b]) == a + b && ScanChunks([a, b]) == Resume(Scan(a), b)
  {
    assert [a, b][1..] == [b] && [b][1..] == [];
    assert Flatten([b]) == b + Flatten([]);
    assert [a, b][..1] == [a] && [a][..0] == [];
    assert ScanChunks([a]) == Resume(ScanChunks([]), a);
    ResumeNothing(a);
  }

  // The exact condition: a stream is scanned alike under every chunking, in deliveries and
  // leftover, if and only if no 'O' or 'E' stands in a stretch dropped by resynchronisation.
  lemma ChunkingIndependentIffClean(stream: seq<Byte>)
    ensures (forall chunks | Flatten(chunks) == stream :: ScanChunks(chunks) == Scan(stream)) <==> Clean(stream)
  {
    if Clean(stream) {
      forall chunks | Flatten(chunks) == stream
        ensures ScanChunks(chunks) == Scan(stream)
      {
        CleanStreamChunks(chunks);
      }
    } else {
      DirtyCut(stream);
      var k: nat :| CutShows(stream, k);
      assert stream == stream[..k] + stream[k..];
      TwoChunks(stream[..k], stream[k..]);
      assert ScanChunks([stream[..k], stream[k..]]) != Scan(stream);
    }
  }

  // "OK" CR on its own is a reply.
  lemma OkIsReply(b: seq<Byte>)
    requires b == [0x4f, 0x4b, 0x0d]
    ensures Scan(b) == Scanned([Reply(b[..2])], [])
  {
    assert b[2] == 0x0d && LineEnd(b) <= 2;
    assert |b[2..]| == 1 && b[2..][0] == 0x0d;
    assert Scan(b[2..]) == Scan(b[2..][1..]);
  }

  // The failing family is not empty: "xOK" CR is dropped whole, but a read that ends after "x"
  // makes a reply of it.
  lemma ReplyAfterJunk(x: seq<Byte>, b: seq<Byte>)
    requires x == [0x78] && b == [0x4f, 0x4b, 0x0d]
    ensures Scan(x + b).events == []
    ensures ScanChunks([x, b]).events == [Reply(b[..2])]
  {
    hide Scan, Resync, ScanChunks, Resume;
    TwoChunks(x, b);
    OkIsReply(b);
    JunkDrops(x, b);
  }

  lemma JunkDrops(x: seq<Byte>, b: seq<Byte>)
    requires |x| == 1 && x[0] == 0x78
    requires |b| == 3 && forall i | 0 <= i < 3 :: !StartsFrame(b[i])
    ensures Scan(x + b).events == [] && Resume(Scan(x), b) == Scan(b)
  {
    assert (x + b)[1..] == b && x[1..] == [];
    assert Scan(x) == Resync([]);
    ResumeNothing(b);
    DropsThree(b);
  }

  lemma DropsThree(b: seq<Byte>)
    requires |b| == 3 && forall i | 0 <= i < 3 :: !StartsFrame(b[i])
    ensures Resync(b) == Scanned([], [])
  {
    assert Resync(b) == Resync(b[1..]);
    assert Resync(b[1..]) == Resync(b[1..][1..]);
    assert Resync(b[1..][1..]) == Resync(b[1..][1..][1..]);
  }

  // ---- what a stream of complete items delivers ----

  predicate Separator(b: Byte) { b in {0x0d, 0x0a, 0x20, 0x09} }

  // An alarm or a frame.
  predicate Start(b: Byte) { b in {0x46, 0x24, 0xfe, 0x1f} }

  predicate NoLineEnd(line: seq<Byte>) { 0x0d !in line && 0x0a !in line }

  // What each kind of item looks like on the wire, but for the line end.
  predicate Deliverable(e: Event) {
    match e
    case Alarm(line) => line != [] && line[0] in {0x46, 0x24} && NoLineEnd(line)
    case Reply(line) => line != [] && line[0] in {0x4f, 0x45} && NoLineEnd(line)
    case Frame8(frame) => |frame| == 8 && frame[0] == 0xfe
    case Frame16(frame) => |frame| == 16 && frame[0] == 0x1f
  }

  function Wire(e: Event): seq<Byte> {
    match e
    case Alarm(line) => line
    case Reply(line) => line
    case Frame8(frame) => frame
    case Frame16(frame) => frame
  }

  // Separators after an item; a line needs its end.
  predicate Ends(e: Event, gap: seq<Byte>) {
    && (forall b | b in gap :: Separator(b))
    && (e.Alarm? || e.Reply? ==> gap != [] && gap[0] in {0x0d, 0x0a})
  }

  // Junk before an item: it starts with nothing known and hides no start; a reply after it would be
  // lost.
  predicate Junk(junk: seq<Byte>, e: Event) {
    junk == [] || (
      && !Separator(junk[0]) && junk[0] !in {0x4f, 0x45}
      && (forall b | b in junk :: !Start(b))
      && !e.Reply?)
  }

  datatype Item = Item(junk: seq<Byte>, event: Event, gap: seq<Byte>)

  predicate Complete(i: Item) { Deliverable(i.event) && Ends(i.event, i.gap) && Junk(i.junk, i.event) }

  function Stream(items: seq<Item>): seq<Byte> {
    if items == [] then [] else items[0].junk + (Wire(items[0].event) + (items[0].gap + Stream(items[1..])))
  }

  function EventsOf(items: seq<Item>): (events: seq<Event>)
    ensures |events| == |items| && forall i | 0 <= i < |items| :: events[i] == items[i].event
  {
    seq(|items|, i requires 0 <= i < |items| => items[i].event)
  }

  lemma {:induction false} SkipsSeparators(gap: seq<Byte>, more: seq<Byte>)
    requires forall b | b in gap :: Separator(b)
    ensures Scan(gap + more) == Scan(more)
    decreases |gap|
  {
    if gap == [] {
      assert gap + more == more;
    } else {
      assert (gap + more)[1..] == gap[1..] + more;
      assert Separator(gap[0]);
      SkipsSeparators(gap[1..], more);
    }
  }

  lemma {:induction false} ResyncSkips(junk: seq<Byte>, more: seq<Byte>)
    requires forall b | b in junk :: !Start(b)
    requires more != [] && Start(more[0])
    ensures Resync(junk + more) == Scan(more)
    decreases |junk|
  {
    if junk == [] {
      assert junk + more == more;
    } else {
      assert (junk + more)[1..] == junk[1..] + more;
      assert !Start(junk[0]);
      ResyncSkips(junk[1..], more);
    }
  }

  lemma JunkSkipped(i: Item, more: seq<Byte>)
    requires Complete(i)
    ensures Scan(i.junk + (Wire(i.event) + more)) == Scan(Wire(i.event) + more)
  {
    var item := Wire(i.event) + more;
    if i.junk == [] {
      assert i.junk + item == item;
    } else {
      assert i.junk[0] in i.junk;
      assert (i.junk + item)[1..] == i.junk[1..] + item;
      ResyncSkips(i.junk[1..], item);
    }
  }

  lemma LineStops(line: seq<Byte>, gap: seq<Byte>, more: seq<Byte>)
    requires NoLineEnd(line) && gap != [] && gap[0] in {0x0d, 0x0a}
    ensures LineEnd(line + (gap + more)) == |line|
  {
    hide LineEnd;
    var b := line + (gap + more);
    assert b[|line|] == gap[0] && IsLineEnd(b[|line|]);
    assert forall i | 0 <= i < |line| :: b[i] == line[i] && line[i] in line;
    LineEndAt(b, |line|);
  }

  lemma LineEndAt(b: seq<Byte>, n: nat)
    requires n < |b| && IsLineEnd(b[n]) && forall i | 0 <= i < n :: !IsLineEnd(b[i])
    ensures LineEnd(b) == n
  {}

  lemma LineDelivered(e: Event, gap: seq<Byte>, more: seq<Byte>)
    requires Deliverable(e) && Ends(e, gap) && (e.Alarm? || e.Reply?)
    ensures Scan(Wire(e) + (gap + more)) == Prepend(e, Scan(gap + more))
  {
    var line, b := Wire(e), Wire(e) + (gap + more);
    LineStops(line, gap, more);
    assert b[..|line|] == line && b[|line|..] == gap + more && b[0] == line[0];
  }

  lemma FrameDelivered(e: Event, rest: seq<Byte>)
    requires Deliverable(e) && (e.Frame8? || e.Frame16?)
    ensures Scan(Wire(e) + rest) == Prepend(e, Scan(rest))
  {
    var frame, b := Wire(e), Wire(e) + rest;
    assert b[..|frame|] == frame && b[|frame|..] == rest;
  }

  // Complete items, with junk before them and separators behind, are delivered, all of them, in
  // order and as they are, and nothing is left.
  lemma {:induction false} RecoversItems(items: seq<Item>)
    requires forall i | 0 <= i < |items| :: Complete(items[i])
    ensures Scan(Stream(items)) == Scanned(EventsOf(items), [])
    decreases |items|
  {
    hide Complete, Deliverable, Ends, Junk, Scan;
    if items == [] {
      ScanNothing();
    } else {
      var i, later := items[0], Stream(items[1..]);
      RecoversItems(items[1..]);
      assert EventsOf(items) == [i.event] + EventsOf(items[1..]);
      ItemDelivered(i, later);
    }
  }

  lemma ScanNothing()
    ensures Scan([]) == Scanned([], [])
  {}

  lemma ItemDelivered(i: Item, later: seq<Byte>)
    requires Complete(i)
    ensures Scan(i.junk + (Wire(i.event) + (i.gap + later))) == Prepend(i.event, Scan(later))
  {
    hide Scan;
    JunkSkipped(i, i.gap + later);
    if i.event.Alarm? || i.event.Reply? {
      LineDelivered(i.event, i.gap, later);
    } else {
      FrameDelivered(i.event, i.gap + later);
    }
    SkipsSeparators(i.gap, later);
  }

  // An item still incomplete is kept whole.
  lemma IncompleteKept(b: seq<Byte>)
    requires b != []
    requires
      || (b[0] in {0x46, 0x24, 0x4f, 0x45} && NoLineEnd(b))
      || (b[0] == 0xfe && |b| < 8) || (b[0] == 0x1f && |b| < 16)
    ensures Scan(b) == Scanned([], b)
  {
    if LineEnd(b) >= 0 {
      assert b[LineEnd(b)] in b;
    }
  }

  // ---- the receiver ----

  method TrimLeadingSeparators(buffer: seq<Byte>) returns (rest: seq<Byte>)
    ensures |rest| <= |buffer| && Scan(rest) == Scan(buffer)
    ensures rest == [] || !IsSeparator(rest[0])
  {
    rest := buffer;
    while rest != [] && IsSeparator(rest[0])
      invariant |rest| <= |buffer| && Scan(rest) == Scan(buffer)
    {
      rest := rest[1..];
    }
  }

  method ConsumeLineEnd(buffer: seq<Byte>) returns (rest: seq<Byte>)
    ensures |rest| <= |buffer| && Scan(rest) == Scan(buffer)
    ensures buffer != [] && IsLineEnd(buffer[0]) ==> |rest| < |buffer|
  {
    rest := buffer;
    while rest != [] && IsLineEnd(rest[0])
      invariant |rest| <= |buffer| && Scan(rest) == Scan(buffer)
      invariant rest == buffer || |rest| < |buffer|
    {
      rest := rest[1..];
    }
  }

  method NextFrameStart(buffer: seq<Byte>) returns (index: int)
    ensures index == -1 ==> Resync(buffer) == Scanned([], [])
    ensures index != -1 ==> 0 <= index < |buffer| && Resync(buffer) == Scan(buffer[index..])
  {
    for i := 0 to |buffer|
      invariant Resync(buffer) == Resync(buffer[i..])
    {
      if StartsFrame(buffer[i]) {
        return i;
      }
      assert buffer[i..][1..] == buffer[i + 1..];
    }
    assert buffer[|buffer|..] == [];
    return -1;
  }

  // One turn of the scanner's loop: whether it goes on, and what it delivered.
  method Turn(buffer: seq<Byte>) returns (goOn: bool, event: Option<Event>, rest: seq<Byte>)
    ensures !goOn ==> event == None && Scan(buffer) == Scanned([], rest)
    ensures goOn ==> |rest| < |buffer|
    ensures goOn && event == None ==> Scan(buffer) == Scan(rest)
    ensures goOn && event.Some? ==> Scan(buffer) == Prepend(event.value, Scan(rest))
  {
    rest := TrimLeadingSeparators(buffer);
    if rest == [] {
      return false, None, rest;
    }
    if StartsLine(rest[0]) {
      var lineEnd := LineEnd(rest);
      if lineEnd == -1 {
        return false, None, rest;
      }
      event := Some(LineEvent(rest[..lineEnd]));
      rest := ConsumeLineEnd(rest[lineEnd..]);
      return true, event, rest;
    } else if rest[0] == 0xfe || rest[0] == 0x1f {
      var size := if rest[0] == 0xfe then 8 else 16;
      if |rest| < size {
        return false, None, rest;
      }
      return true, Some(FrameEvent(rest[..size])), rest[size..];
    } else {
      var next := NextFrameStart(rest[1..]);
      if next == -1 {
        return false, None, [];
      }
      assert rest[1..][next..] == rest[next + 1..];
      return true, None, rest[next + 1..];
    }
  }

  // The events are the calls the receiver makes, in order.
  method IngestBuffer(buffer: seq<Byte>) returns (rest: seq<Byte>, events: seq<Event>)
    ensures Scanned(events, rest) == Scan(buffer)
  {
    rest, events := buffer, [];
    var goOn := true;
    while goOn
      invariant goOn ==> Scan(buffer) == Scanned(events + Scan(rest).events, Scan(rest).rest)
      invariant !goOn ==> Scan(buffer) == Scanned(events, rest)
      decreases goOn, |rest|
    {
      var event: Option<Event>;
      ghost var b := rest;
      goOn, event, rest := Turn(rest);
      assert events + [] == events;
      if event.Some? {
        events := Push(events, event.value, Scan(rest).events);
      }
    }
  }

  function Push(events: seq<Event>, e: Event, ghost later: seq<Event>): (more: seq<Event>)
    ensures more == events + [e] && events + ([e] + later) == more + later
  {
    events + [e]
  }

  function Truncated(rest: seq<Byte>, limit: nat): seq<Byte> {
    if |rest| > limit then rest[|rest| - limit..] else rest
  }

  predicate LastBytes(all: seq<Byte>, limit: nat, kept: seq<Byte>) {
    |kept| == (if |all| <= limit then |all| else limit) && kept == all[|all| - |kept|..]
  }

  lemma TruncatedKeepsLast(rest: seq<Byte>, limit: nat)
    ensures LastBytes(rest, limit, Truncated(rest, limit))
  {}

  class Connection {
    const limit: nat
    var buffer: seq<Byte>

    constructor (limit: nat)
      ensures buffer == [] && this.limit == limit
    {
      this.limit, buffer := limit, [];
    }

    // One read of the connection. What the scanner leaves is kept, or the last bytes of it that fit the limit.
    method Receive(chunk: seq<Byte>) returns (events: seq<Event>)
      modifies this
      ensures var s := Scan(old(buffer) + chunk); events == s.events && buffer == Truncated(s.rest, limit)
      ensures LastBytes(Scan(old(buffer) + chunk).rest, limit, buffer)
    {
      hide Scan, LastBytes;
      buffer := buffer + chunk;
      buffer, events := IngestBuffer(buffer);
      TruncatedKeepsLast(buffer, limit);
      if |buffer| > limit {
        buffer := buffer[|buffer| - limit..];
      }
    }
  }

  // Everything a connection delivers, with its buffer limit.
  function Received(chunks: seq<seq<Byte>>, limit: nat): Scanned {
    if chunks == [] then Scanned([], [])
    else
      var before := Received(chunks[..|chunks| - 1], limit);
      var s := Resume(before, chunks[|chunks| - 1]);
      Scanned(s.events, Truncated(s.rest, limit))
  }

  // While the leftover fits, the limit is invisible, and a clean stream is delivered whole.
  lemma {:induction false} LimitInvisible(chunks: seq<seq<Byte>>, limit: nat)
    requires forall k | 0 <= k <= |chunks| :: |ScanChunks(chunks[..k]).rest| <= limit
    ensures Received(chunks, limit) == ScanChunks(chunks)
    ensures Clean(Flatten(chunks)) ==> Received(chunks, limit) == Scan(Flatten(chunks))
    decreases |chunks|
  {
    if chunks != [] {
      var init := chunks[..|chunks| - 1];
      assert forall k | 0 <= k <= |init| :: init[..k] == chunks[..k];
      assert chunks[..|chunks|] == chunks;
      LimitInvisible(init, limit);
    }
    if Clean(Flatten(chunks)) {
      CleanStreamChunks(chunks);
    }
  }
}
