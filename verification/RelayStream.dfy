// The relay's byte stream: ASCII replies "zq ... qz" mixed with binary reports that start with
// 48 3A, read in arbitrary pieces and decoded with resynchronisation.
// Models internal/interference/relay_monitor.go and the reading half of relay.go.
module RelayStream {
  import opened Bytes

  const LOWER_Z: Byte := 0x7a
  const LOWER_Q: Byte := 0x71
  const HEADER_0: Byte := 0x48
  const HEADER_1: Byte := 0x3a
  const TRAILER_0: Byte := 0x45
  const TRAILER_1: Byte := 0x44
  const FRAME_SIZE := 15
  const SHORT_FRAME_SIZE := 10
  const INPUT_STATE: Byte := 0x41
  const OUTPUT_STATE: Byte := 0x54
  const CHANNEL_COUNT := 8
  const MAX_RESPONSE := 1024

  datatype Message = Ascii(text: seq<Byte>) | Binary(frame: seq<Byte>)

  function Raw(m: Message): seq<Byte> {
    match m
    case Ascii(text) => text
    case Binary(frame) => frame
  }

  // Addition of bytes wraps around at 256.
  function Sum(bytes: seq<Byte>): Byte {
    if bytes == [] then 0 else Sum(bytes[..|bytes| - 1]) + bytes[|bytes| - 1]
  }

  lemma SumNone()
    ensures Sum([]) == 0
  {}

  lemma SumSnoc(bytes: seq<Byte>, i: nat)
    requires i < |bytes|
    ensures Sum(bytes[..i + 1]) == Sum(bytes[..i]) + bytes[i]
  {
    assert bytes[..i + 1][..i] == bytes[..i];
  }

  predicate ShortCommand(command: Byte) { 0x70 <= command <= 0x72 }

  function FrameSize(command: Byte): int {
    if ShortCommand(command) then SHORT_FRAME_SIZE else FRAME_SIZE
  }

  predicate ValidFrame(frame: seq<Byte>) {
    && |frame| >= 4
    && frame[0] == HEADER_0 && frame[1] == HEADER_1
    && |frame| == FrameSize(frame[3])
    && frame[|frame| - 2] == TRAILER_0 && frame[|frame| - 1] == TRAILER_1
    && (|frame| == FRAME_SIZE ==> Sum(frame[..12]) == frame[12])
  }

  predicate ValidReply(text: seq<Byte>) {
    && |text| >= 4
    && text[0] == LOWER_Z && text[1] == LOWER_Q
    && FindPair(text[2..], LOWER_Q, LOWER_Z) == |text| - 4
  }

  // The messages of the relay's manual: what a decoder has to recover.
  predicate WellFormed(m: Message) {
    match m
    case Ascii(text) => ValidReply(text)
    case Binary(frame) => ValidFrame(frame)
  }

  // A binary message byte by byte: header, 15 bytes or 10 for a short command, trailer, and in the
  // long form the sum of the first twelve bytes.
  lemma BinaryRules(f: seq<Byte>)
    ensures WellFormed(Binary(f)) <==>
      (|f| >= 4 && f[0] == 0x48 && f[1] == 0x3a && |f| == (if 0x70 <= f[3] <= 0x72 then 10 else 15)
       && f[|f| - 2] == 0x45 && f[|f| - 1] == 0x44
       && (|f| == 15 ==> f[12] == Sum(f[..12])))
  {}

  // A reply: "zq", then up to the first "qz" after that, which ends it.
  lemma ReplyRules(text: seq<Byte>)
    ensures WellFormed(Ascii(text)) <==>
      (|text| >= 4 && text[0] == 0x7a && text[1] == 0x71 && text[|text| - 2] == 0x71 && text[|text| - 1] == 0x7a
       && forall i | 2 <= i < |text| - 2 :: !(text[i] == 0x71 && text[i + 1] == 0x7a))
  {
    if |text| >= 4 {
      var rest := text[2..];
      assert forall i | 0 <= i < |text| - 3 :: PairAt(rest, i, 0x71, 0x7a) <==> text[i + 2] == 0x71 && text[i + 3] == 0x7a;
      assert forall i | 2 <= i < |text| - 1 && text[i] == 0x71 && text[i + 1] == 0x7a :: PairAt(rest, i - 2, 0x71, 0x7a);
      assert PairAt(rest, |text| - 4, 0x71, 0x7a) <==> text[|text| - 2] == 0x71 && text[|text| - 1] == 0x7a;
    }
  }

  // What the decoder does with the front of its buffer.
  datatype Move = Wait | Skip | Take(message: Message)

  function Front(b: seq<Byte>): Move
    requires |b| >= 2
  {
    if b[0] == LOWER_Z && b[1] == LOWER_Q then
      var end := FindPair(b[2..], LOWER_Q, LOWER_Z);
      if end < 0 then Wait else Take(Ascii(b[..end + 4]))
    else if b[0] == HEADER_0 && b[1] == HEADER_1 then
      if |b| < 4 then Wait
      else
        var size := FrameSize(b[3]);
        if |b| < size then Wait
        else if ValidFrame(b[..size]) then Take(Binary(b[..size])) else Skip
    else Skip
  }

  lemma FrontTakesWellFormed(b: seq<Byte>)
    requires |b| >= 2 && Front(b).Take?
    ensures WellFormed(Front(b).message) && Raw(Front(b).message) <= b
  {
    if b[0] == LOWER_Z {
      var end := FindPair(b[2..], LOWER_Q, LOWER_Z);
      var text := b[..end + 4];
      assert text[2..] + b[end + 4..] == b[2..];
      assert PairAt(text[2..], end, LOWER_Q, LOWER_Z);
      FindPairStable(text[2..], b[end + 4..], LOWER_Q, LOWER_Z);
    }
  }

  lemma FrontTakes(m: Message, more: seq<Byte>)
    requires WellFormed(m)
    ensures |Raw(m)| >= 4 && Front(Raw(m) + more) == Take(m)
  {
    var b := Raw(m) + more;
    match m
    case Ascii(text) =>
      FindPairStable(text[2..], more, LOWER_Q, LOWER_Z);
      assert b[2..] == text[2..] + more;
      assert b[..|text|] == text;
    case Binary(frame) =>
      assert b[..|frame|] == frame;
  }

  // A decision other than "wait" is final: later bytes cannot change it.
  lemma FrontStable(a: seq<Byte>, more: seq<Byte>)
    requires |a| >= 2 && !Front(a).Wait?
    ensures Front(a + more) == Front(a)
  {
    var b := a + more;
    if a[0] == LOWER_Z && a[1] == LOWER_Q {
      FindPairStable(a[2..], more, LOWER_Q, LOWER_Z);
      assert b[2..] == a[2..] + more;
      var end := FindPair(a[2..], LOWER_Q, LOWER_Z);
      assert b[..end + 4] == a[..end + 4];
    } else if a[0] == HEADER_0 && a[1] == HEADER_1 {
      assert b[..FrameSize(a[3])] == a[..FrameSize(a[3])];
    }
  }

  datatype Drained = Drained(messages: seq<Message>, rest: seq<Byte>)

  // Everything the decoder yields from a buffer, and what it keeps.
  function Drain(b: seq<Byte>): (d: Drained)
    ensures |d.rest| <= |b|
    decreases |b|
  {
    if |b| < 2 then
      Drained([], if |b| == 1 && b[0] != HEADER_0 && b[0] != LOWER_Z then [] else b)
    else
      match Front(b)
      case Wait => Drained([], b)
      case Skip => Drain(b[1..])
      case Take(m) =>
        FrontTakesWellFormed(b);
        FrontTakes(m, []);
        var d := Drain(b[|Raw(m)|..]);
        Drained([m] + d.messages, d.rest)
  }

  // Reading `more` after a first drain.
  function Resume(first: Drained, more: seq<Byte>): Drained {
    var second := Drain(first.rest + more);
    Drained(first.messages + second.messages, second.rest)
  }

  lemma ResumeTake(m: Message, first: Drained, more: seq<Byte>)
    ensures Resume(Drained([m] + first.messages, first.rest), more)
         == Drained([m] + Resume(first, more).messages, Resume(first, more).rest)
  {
    var second := Drain(first.rest + more);
    assert ([m] + first.messages) + second.messages == [m] + (first.messages + second.messages);
  }

  lemma DrainTakes(m: Message, more: seq<Byte>)
    requires WellFormed(m)
    ensures Drain(Raw(m) + more) == Drained([m] + Drain(more).messages, Drain(more).rest)
  {
    FrontTakes(m, more);
    assert (Raw(m) + more)[|Raw(m)|..] == more;
  }

  lemma DrainSkips(b: seq<Byte>, more: seq<Byte>)
    requires |b| >= 2 && Front(b).Skip?
    ensures Drain(b) == Drain(b[1..]) && Drain(b + more) == Drain(b[1..] + more)
  {
    FrontStable(b, more);
    assert (b + more)[1..] == b[1..] + more;
  }

  lemma ShortDrain(a: seq<Byte>, b: seq<Byte>)
    requires |a| < 2
    ensures Drain(a + b) == Resume(Drain(a), b)
  {
    if |a| == 1 && Drain(a).rest == [] {
      assert (a + b)[1..] == b && [] + b == b;
      assert a + b == a + b;
    }
  }

  lemma {:induction false} DrainSplit(a: seq<Byte>, b: seq<Byte>)
    ensures Drain(a + b) == Resume(Drain(a), b)
    decreases |a|
  {
    hide Front, WellFormed;
    if |a| < 2 {
      ShortDrain(a, b);
    } else if Front(a).Skip? {
      DrainSkips(a, b);
      DrainSplit(a[1..], b);
    } else if Front(a).Take? {
      FrontTakesWellFormed(a);
      var m := Front(a).message;
      var n := |Raw(m)|;
      var rest := a[n..];
      assert a == Raw(m) + rest && a + b == Raw(m) + (rest + b);
      FrontTakes(m, []);
      DrainTakes(m, rest);
      DrainTakes(m, rest + b);
      DrainSplit(rest, b);
      ResumeTake(m, Drain(rest), b);
    }
  }

  // Draining after every chunk, as both readers of the connection do.
  function DrainChunks(chunks: seq<seq<Byte>>): Drained {
    if chunks == [] then Drained([], [])
    else Resume(DrainChunks(chunks[..|chunks| - 1]), chunks[|chunks| - 1])
  }

  // However the network cuts the stream, the messages and the leftover are those of the whole.
  lemma {:induction false} ChunkingIndependent(chunks: seq<seq<Byte>>)
    ensures DrainChunks(chunks) == Drain(Flatten(chunks))
  {
    if chunks != [] {
      var init, last := chunks[..|chunks| - 1], chunks[|chunks| - 1];
      ChunkingIndependent(init);
      FlattenSnoc(init, last);
      assert init + [last] == chunks;
      DrainSplit(Flatten(init), last);
    }
  }

  // gaps[0] m[0] gaps[1] m[1] ...
  function Weave(gaps: seq<seq<Byte>>, messages: seq<Message>): seq<Byte>
    requires |gaps| == |messages|
  {
    if messages == [] then [] else gaps[0] + Raw(messages[0]) + Weave(gaps[1..], messages[1..])
  }

  predicate Placed(stream: seq<Byte>, gaps: seq<seq<Byte>>, dropped: seq<Byte>, d: Drained) {
    && |gaps| == |d.messages|
    && stream == Weave(gaps, d.messages) + dropped + d.rest
  }

  lemma PlacedSkipped(x: Byte, stream: seq<Byte>, gaps: seq<seq<Byte>>, dropped: seq<Byte>, d: Drained)
    requires Placed(stream, gaps, dropped, d)
    ensures exists gaps', dropped' :: Placed([x] + stream, gaps', dropped', d)
  {
    if gaps == [] {
      assert [x] + stream == Weave([], []) + ([x] + dropped) + d.rest;
      assert Placed([x] + stream, [], [x] + dropped, d);
    } else {
      var longer := [[x] + gaps[0]] + gaps[1..];
      assert longer[1..] == gaps[1..];
      assert Weave(longer, d.messages) == [x] + Weave(gaps, d.messages);
      assert Placed([x] + stream, longer, dropped, d);
    }
  }

  lemma PlacedTaken(m: Message, stream: seq<Byte>, gaps: seq<seq<Byte>>, dropped: seq<Byte>, d: Drained)
    requires Placed(stream, gaps, dropped, d)
    ensures exists gaps', dropped' :: Placed(Raw(m) + stream, gaps', dropped', Drained([m] + d.messages, d.rest))
  {
    var longer := [[]] + gaps;
    assert longer[1..] == gaps && ([m] + d.messages)[1..] == d.messages;
    assert Weave(longer, [m] + d.messages) == Raw(m) + Weave(gaps, d.messages);
    assert Placed(Raw(m) + stream, longer, dropped, Drained([m] + d.messages, d.rest));
  }

  // Soundness: only well-formed messages are yielded, they are disjoint pieces of the input in
  // its order, and the leftover is its end. `gaps` and `dropped` are the bytes discarded.
  lemma {:induction false} YieldsPiecesOfInput(b: seq<Byte>)
    ensures exists gaps, dropped :: Placed(b, gaps, dropped, Drain(b))
    ensures forall m | m in Drain(b).messages :: WellFormed(m)
    decreases |b|
  {
    hide Front, WellFormed;
    if |b| < 2 || Front(b).Wait? {
      var dropped := if Drain(b).rest == [] then b else [];
      assert Weave([], []) + dropped + Drain(b).rest == b;
      assert Placed(b, [], dropped, Drain(b));
    } else if Front(b).Skip? {
      YieldsPiecesOfInput(b[1..]);
      DrainSkips(b, []);
      var gaps, dropped :| Placed(b[1..], gaps, dropped, Drain(b[1..]));
      PlacedSkipped(b[0], b[1..], gaps, dropped, Drain(b));
      assert b == [b[0]] + b[1..];
    } else {
      FrontTakesWellFormed(b);
      var m := Front(b).message;
      FrontTakes(m, []);
      var rest := b[|Raw(m)|..];
      assert b == Raw(m) + rest;
      DrainTakes(m, rest);
      YieldsPiecesOfInput(rest);
      var gaps, dropped :| Placed(rest, gaps, dropped, Drain(rest));
      PlacedTaken(m, rest, gaps, dropped, Drain(rest));
    }
  }

  // Junk in which no message can seem to start.
  ghost predicate Quiet(junk: seq<Byte>) {
    forall i :: !PairAt(junk, i, LOWER_Z, LOWER_Q) && !PairAt(junk, i, HEADER_0, HEADER_1)
  }

  function QuietRest(junk: seq<Byte>): seq<Byte> {
    if junk != [] && junk[|junk| - 1] in {HEADER_0, LOWER_Z} then junk[|junk| - 1..] else []
  }

  lemma QuietTail(junk: seq<Byte>)
    requires Quiet(junk) && junk != []
    ensures Quiet(junk[1..])
  {
    assert forall i, x, y :: PairAt(junk[1..], i, x, y) ==> PairAt(junk, i + 1, x, y);
  }

  lemma QuietSkips(junk: seq<Byte>, m: Message, more: seq<Byte>)
    requires Quiet(junk) && junk != [] && WellFormed(m)
    ensures |junk + Raw(m) + more| >= 2 && Front(junk + Raw(m) + more).Skip?
  {
    hide FindPair, ValidFrame;
    FrontTakes(m, []);
    assert !PairAt(junk, 0, LOWER_Z, LOWER_Q) && !PairAt(junk, 0, HEADER_0, HEADER_1);
  }

  lemma {:induction false} SkipsJunk(junk: seq<Byte>, m: Message, more: seq<Byte>)
    requires Quiet(junk) && WellFormed(m)
    ensures Drain(junk + Raw(m) + more) == Drain(Raw(m) + more)
    decreases |junk|
  {
    hide Quiet, Front, WellFormed, Raw;
    if junk == [] {
      assert junk + Raw(m) + more == Raw(m) + more;
    } else {
      QuietSkips(junk, m, more);
      assert (junk + Raw(m) + more)[1..] == junk[1..] + Raw(m) + more;
      QuietTail(junk);
      SkipsJunk(junk[1..], m, more);
    }
  }

  lemma QuietFront(junk: seq<Byte>)
    requires Quiet(junk) && |junk| >= 2
    ensures Front(junk).Skip?
  {
    hide FindPair, ValidFrame;
    assert !PairAt(junk, 0, LOWER_Z, LOWER_Q) && !PairAt(junk, 0, HEADER_0, HEADER_1);
  }

  lemma {:induction false} DropsFinalJunk(junk: seq<Byte>)
    requires Quiet(junk)
    ensures Drain(junk) == Drained([], QuietRest(junk))
    decreases |junk|
  {
    hide Quiet, Front;
    if |junk| >= 2 {
      QuietFront(junk);
      QuietTail(junk);
      DropsFinalJunk(junk[1..]);
      assert junk[1..][|junk| - 2..] == junk[|junk| - 1..];
    }
  }

  // Completeness: well-formed messages between quiet junk are recovered, all of them, in order.
  lemma {:induction false} RecoversMessages(gaps: seq<seq<Byte>>, messages: seq<Message>, tail: seq<Byte>)
    requires |gaps| == |messages|
    requires forall m | m in messages :: WellFormed(m)
    requires forall g | g in gaps :: Quiet(g)
    requires Quiet(tail)
    ensures Drain(Weave(gaps, messages) + tail) == Drained(messages, QuietRest(tail))
    decreases |messages|
  {
    if messages == [] {
      assert Weave(gaps, messages) + tail == tail;
      DropsFinalJunk(tail);
    } else {
      var m, later := messages[0], Weave(gaps[1..], messages[1..]) + tail;
      assert Weave(gaps, messages) + tail == gaps[0] + Raw(m) + later;
      SkipsJunk(gaps[0], m, later);
      FrontTakes(m, later);
      assert (Raw(m) + later)[|Raw(m)|..] == later;
      RecoversMessages(gaps[1..], messages[1..], tail);
      assert [m] + messages[1..] == messages;
    }
  }

  function ReadHead(address: Byte, command: Byte): seq<Byte> {
    [HEADER_0, HEADER_1, address, command, 0, 0, 0, 0, 0, 0, 0, 0]
  }

  // The device address is a byte: the controller's options are normalised to 0..255 beforehand.
  // The frame the monitor sends to ask for the outputs.
  function ReadFrame(address: Byte, command: Byte): seq<Byte> {
    ReadHead(address, command) + [Sum(ReadHead(address, command)), TRAILER_0, TRAILER_1]
  }

  lemma ReadFrameBytes(address: Byte, command: Byte)
    ensures ReadFrame(address, command) ==
      [0x48, 0x3a, address, command, 0, 0, 0, 0, 0, 0, 0, 0,
       Sum([0x48, 0x3a, address, command, 0, 0, 0, 0, 0, 0, 0, 0]), 0x45, 0x44]
  {
    hide Sum;
  }

  method RelayReadFrame(address: Byte, command: Byte) returns (frame: array<Byte>)
    ensures fresh(frame) && frame[..] == ReadFrame(address, command)
    ensures frame[..] == [0x48, 0x3a, address, command, 0, 0, 0, 0, 0, 0, 0, 0,
                          Sum([0x48, 0x3a, address, command, 0, 0, 0, 0, 0, 0, 0, 0]), 0x45, 0x44]
  {
    hide Sum;
    frame := new Byte[FRAME_SIZE](_ => 0);
    SumNone();
    frame[0], frame[1], frame[2], frame[3] := HEADER_0, HEADER_1, address, command;
    ghost var head := ReadHead(address, command);
    assert head[..0] == [];
    for i := 0 to 12
      invariant forall k | 0 <= k < 12 :: frame[k] == head[k]
      invariant frame[12] == Sum(head[..i])
    {
      SumSnoc(head, i);
      frame[12] := frame[12] + frame[i];
    }
    assert head[..12] == head;
    ReadFrameBytes(address, command);
    frame[13], frame[14] := TRAILER_0, TRAILER_1;
  }

  // The program's own queries survive the decoder, which needs a command outside 70..72.
  lemma ReadFrameWellFormed(address: Byte, command: Byte)
    ensures WellFormed(Binary(ReadFrame(address, command))) <==> !ShortCommand(command)
  {
    var frame := ReadFrame(address, command);
    assert frame[..12] == ReadHead(address, command);
  }

  datatype StatusUpdate = StatusUpdate(inputs: bool, values: seq<Byte>)

  function ParseStatus(frame: seq<Byte>, address: Byte): Option<StatusUpdate> {
    if |frame| != FRAME_SIZE || frame[2] != address || frame[3] !in {INPUT_STATE, OUTPUT_STATE} then None
    else if exists i | 4 <= i < 12 :: frame[i] > 1 then None
    else Some(StatusUpdate(frame[3] == INPUT_STATE, frame[4..12]))
  }

  method ParseRelayStatusFrame(frame: seq<Byte>, address: Byte) returns (update: Option<StatusUpdate>)
    ensures update == ParseStatus(frame, address)
    ensures update.Some? <==>
      (|frame| == 15 && frame[2] == address && frame[3] in {0x41, 0x54} && forall i | 4 <= i < 12 :: frame[i] in {0, 1})
    ensures update.Some? ==> (update.value.inputs <==> frame[3] == 0x41) && |update.value.values| == 8
    ensures update.Some? ==> forall i | 0 <= i < 8 :: update.value.values[i] == frame[4 + i]
  {
    if |frame| != FRAME_SIZE || frame[2] != address || (frame[3] != INPUT_STATE && frame[3] != OUTPUT_STATE) {
      return None;
    }
    var values: seq<Byte> := [];
    for i := 4 to 12
      invariant values == frame[4..i]
      invariant forall k | 4 <= k < i :: frame[k] <= 1
    {
      if frame[i] > 1 {
        return None;
      }
      values := values + [frame[i]];
    }
    update := Some(StatusUpdate(frame[3] == INPUT_STATE, values));
  }

  predicate Reportable(u: StatusUpdate) {
    |u.values| == CHANNEL_COUNT && forall v | v in u.values :: v <= 1
  }

  // The report a device at `address` sends for these values.
  function StatusFrame(address: Byte, u: StatusUpdate): seq<Byte>
    requires Reportable(u)
  {
    var head := [HEADER_0, HEADER_1, address, if u.inputs then INPUT_STATE else OUTPUT_STATE] + u.values;
    head + [Sum(head), TRAILER_0, TRAILER_1]
  }

  lemma StatusFrameParses(address: Byte, u: StatusUpdate)
    requires Reportable(u)
    ensures WellFormed(Binary(StatusFrame(address, u)))
    ensures ParseStatus(StatusFrame(address, u), address) == Some(u)
  {
    var report := StatusFrame(address, u);
    assert report[..12] == report[..4] + u.values;
    assert report[4..12] == u.values;
    assert forall i | 4 <= i < 12 :: report[i] == u.values[i - 4] && u.values[i - 4] in u.values;
  }

  // Decoder and parser together accept a frame as a report exactly when it is that report,
  // byte for byte: no corrupted state gets through, and every report does.
  lemma StatusRoundTrip(address: Byte, frame: seq<Byte>, u: StatusUpdate)
    requires Reportable(u)
    ensures WellFormed(Binary(frame)) && ParseStatus(frame, address) == Some(u) <==> frame == StatusFrame(address, u)
  {
    StatusFrameParses(address, u);
    if WellFormed(Binary(frame)) && ParseStatus(frame, address) == Some(u) {
      var report := StatusFrame(address, u);
      assert frame[..12] == frame[..4] + frame[4..12];
      assert frame[..4] == report[..4];
      assert report[..12] == frame[..12];
      assert frame == frame[..12] + [frame[12], frame[13], frame[14]];
    }
  }

  predicate ReportedOnly(u: Option<StatusUpdate>) { u.Some? ==> Reportable(u.value) }

  lemma ParsedIsReportable(frame: seq<Byte>, address: Byte)
    ensures ReportedOnly(ParseStatus(frame, address))
  {
    if ParseStatus(frame, address).Some? {
      forall v | v in ParseStatus(frame, address).value.values
        ensures v <= 1
      {
        var k :| 0 <= k < 8 && frame[4..12][k] == v;
        assert frame[4 + k] == v;
      }
    }
  }

  // Trailer and, in the long form, checksum.
  method Intact(frame: seq<Byte>) returns (valid: bool)
    requires |frame| >= 4 && frame[0] == HEADER_0 && frame[1] == HEADER_1 && |frame| == FrameSize(frame[3])
    ensures valid <==> ValidFrame(frame)
  {
    valid := frame[|frame| - 2] == TRAILER_0 && frame[|frame| - 1] == TRAILER_1;
    if |frame| == FRAME_SIZE {
      var checksum: Byte := 0;
      for i := 0 to 12
        invariant checksum == Sum(frame[..i])
      {
        SumSnoc(frame, i);
        checksum := checksum + frame[i];
      }
      valid := valid && checksum == frame[12];
    }
  }

  class RelayStreamDecoder {
    var buffer: seq<Byte>

    constructor ()
      ensures buffer == []
    {
      buffer := [];
    }

    // The next complete message, after discarding what cannot belong to one.
    method Next() returns (message: Option<Message>)
      modifies this
      ensures message.Some? ==>
        Drain(old(buffer)) == Drained([message.value] + Drain(buffer).messages, Drain(buffer).rest)
      ensures message.Some? ==> |buffer| < |old(buffer)|
      ensures message.None? ==> Drain(old(buffer)) == Drained([], buffer)
    {
      while |buffer| >= 2
        invariant Drain(buffer) == Drain(old(buffer)) && |buffer| <= |old(buffer)|
        decreases |buffer|
      {
        if buffer[0] == LOWER_Z && buffer[1] == LOWER_Q {
          var end := FindPair(buffer[2..], LOWER_Q, LOWER_Z);
          if end < 0 {
            return None;
          }
          end := end + 4;
          message := Some(Ascii(buffer[..end]));
          buffer := buffer[end..];
          return;
        } else if buffer[0] == HEADER_0 && buffer[1] == HEADER_1 {
          if |buffer| < 4 {
            return None;
          }
          var size := FRAME_SIZE;
          if 0x70 <= buffer[3] <= 0x72 {
            size := SHORT_FRAME_SIZE;
          }
          if |buffer| < size {
            return None;
          }
          var valid := Intact(buffer[..size]);
          if valid {
            message := Some(Binary(buffer[..size]));
            buffer := buffer[size..];
            return;
          }
        }
        buffer := buffer[1..];
      }
      if |buffer| == 1 && buffer[0] != HEADER_0 && buffer[0] != LOWER_Z {
        buffer := [];
      }
      message := None;
    }

    // One read of the connection: append the bytes and take every complete message.
    method Receive(chunk: seq<Byte>) returns (messages: seq<Message>)
      modifies this
      ensures Drained(messages, buffer) == Drain(old(buffer) + chunk)
    {
      buffer := buffer + chunk;
      messages := [];
      while true
        invariant Drain(old(buffer) + chunk) == Drained(messages + Drain(buffer).messages, Drain(buffer).rest)
        decreases |buffer|
      {
        ghost var before := buffer;
        var message := Next();
        if message.None? {
          assert messages + Drain(before).messages == messages;
          return;
        }
        assert messages + ([message.value] + Drain(buffer).messages)
            == messages + [message.value] + Drain(buffer).messages;
        messages := messages + [message.value];
      }
    }
  }

  function FirstReply(messages: seq<Message>): Option<seq<Byte>> {
    if messages == [] then None
    else if messages[0].Ascii? then Some(messages[0].text)
    else FirstReply(messages[1..])
  }

  lemma {:induction false} FirstReplyAppend(a: seq<Message>, b: seq<Message>)
    ensures FirstReply(a + b) == if FirstReply(a).Some? then FirstReply(a) else FirstReply(b)
  {
    if a == [] {
      assert a + b == b;
    } else {
      assert (a + b)[1..] == a[1..] + b;
      FirstReplyAppend(a[1..], b);
    }
  }

  // Message number k is the first reply among them.
  predicate RepliesFirst(messages: seq<Message>, k: nat, text: seq<Byte>) {
    k < |messages| && messages[k] == Ascii(text) && forall j | 0 <= j < k :: messages[j].Binary?
  }

  lemma {:induction false} FirstReplyAt(messages: seq<Message>)
    ensures FirstReply(messages).None? <==> forall j | 0 <= j < |messages| :: messages[j].Binary?
    ensures FirstReply(messages).Some? ==> exists k: nat :: RepliesFirst(messages, k, FirstReply(messages).value)
  {
    if messages != [] {
      if messages[0].Ascii? {
        assert RepliesFirst(messages, 0, messages[0].text);
      } else {
        FirstReplyAt(messages[1..]);
        assert forall j | 0 < j < |messages| :: messages[j] == messages[1..][j - 1];
        if FirstReply(messages).Some? {
          var k: nat :| RepliesFirst(messages[1..], k, FirstReply(messages).value);
          assert RepliesFirst(messages, k + 1, FirstReply(messages).value);
        }
      }
    }
  }

  datatype Response = Reply(text: seq<Byte>) | TooLong | ReadFailed

  // The read loop of a command: `chunks` are the successful reads, then reading fails.
  // The answer is the stream's first ASCII reply, whatever reports surround it and however it
  // was cut; without one the command fails, early only on an oversized leftover, which is one of
  // more than 1024 bytes.
  method ReadReply(chunks: seq<seq<Byte>>) returns (r: Response)
    ensures r.Reply? ==> FirstReply(Drain(Flatten(chunks)).messages) == Some(r.text)
    ensures r.ReadFailed? ==> FirstReply(Drain(Flatten(chunks)).messages) == None
    ensures r.TooLong? ==> exists k | 0 < k <= |chunks| ::
      |Drain(Flatten(chunks[..k])).rest| > 1024 && FirstReply(Drain(Flatten(chunks[..k])).messages) == None
    ensures r.Reply? ==> exists k: nat :: RepliesFirst(Drain(Flatten(chunks)).messages, k, r.text)
    ensures r.ReadFailed? ==> forall k | 0 < k <= |chunks| :: |Drain(Flatten(chunks[..k])).rest| <= 1024
    ensures r.ReadFailed? ==> forall j | 0 <= j < |Drain(Flatten(chunks)).messages| :: Drain(Flatten(chunks)).messages[j].Binary?
  {
    hide Drain, Flatten, FirstReply, RepliesFirst;
    FirstReplyAt(Drain(Flatten(chunks)).messages);
    var decoder := new RelayStreamDecoder();
    ghost var seen: seq<Message> := [];
    NothingYet(chunks);
    for k := 0 to |chunks|
      invariant Drain(Flatten(chunks[..k])) == Drained(seen, decoder.buffer)
      invariant FirstReply(seen) == None
      invariant forall l | 0 < l <= k :: |Drain(Flatten(chunks[..l])).rest| <= MAX_RESPONSE
    {
      ghost var before := decoder.buffer;
      var messages := decoder.Receive(chunks[k]);
      OneMoreChunk(chunks, k, seen, before, messages, decoder.buffer);
      seen := seen + messages;
      assert messages[0..] == messages;
      for i := 0 to |messages|
        invariant FirstReply(messages) == FirstReply(messages[i..])
        invariant Drain(Flatten(chunks[..k + 1])) == Drained(seen, decoder.buffer)
      {
        FirstReplyStep(messages[i..]);
        if messages[i].Ascii? {
          RepliesStay(chunks, k + 1);
          return Reply(messages[i].text);
        }
        assert messages[i..][1..] == messages[i + 1..];
      }
      FirstReplyStep(messages[|messages|..]);
      if |decoder.buffer| > MAX_RESPONSE {
        return TooLong;
      }
    }
    assert chunks[..|chunks|] == chunks;
    return ReadFailed;
  }

  lemma FirstReplyStep(messages: seq<Message>)
    ensures FirstReply(messages) ==
      if messages == [] then None else if messages[0].Ascii? then Some(messages[0].text) else FirstReply(messages[1..])
  {}

  lemma NothingYet(chunks: seq<seq<Byte>>)
    ensures Drain(Flatten(chunks[..0])) == Drained([], []) && FirstReply([]) == None
  {
    assert chunks[..0] == [];
  }

  lemma OneMoreChunk(chunks: seq<seq<Byte>>, k: nat, seen: seq<Message>, before: seq<Byte>, messages: seq<Message>,
                     buffer: seq<Byte>)
    requires k < |chunks| && Drain(Flatten(chunks[..k])) == Drained(seen, before)
    requires Drained(messages, buffer) == Drain(before + chunks[k]) && FirstReply(seen) == None
    ensures Drain(Flatten(chunks[..k + 1])) == Drained(seen + messages, buffer)
    ensures FirstReply(seen + messages) == FirstReply(messages)
  {
    hide Drain, Flatten, FirstReply;
    assert chunks[..k + 1] == chunks[..k] + [chunks[k]];
    FlattenSnoc(chunks[..k], chunks[k]);
    DrainSplit(Flatten(chunks[..k]), chunks[k]);
    FirstReplyAppend(seen, messages);
  }

  lemma RepliesStay(chunks: seq<seq<Byte>>, k: nat)
    requires k <= |chunks| && FirstReply(Drain(Flatten(chunks[..k])).messages).Some?
    ensures FirstReply(Drain(Flatten(chunks)).messages) == FirstReply(Drain(Flatten(chunks[..k])).messages)
  {
    var early, late := Flatten(chunks[..k]), Flatten(chunks[k..]);
    assert chunks == chunks[..k] + chunks[k..];
    FlattenAppend(chunks[..k], chunks[k..]);
    DrainSplit(early, late);
    FirstReplyAppend(Drain(early).messages, Drain(Drain(early).rest + late).messages);
  }
}
