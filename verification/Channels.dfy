// One interference channel: what each kind of event does to it, and what its level then means.
// Models channelState, dtoWithActualState, applyActualLevel, markChannelOfflineLocked and markError
// of internal/interference/service.go and the first loop of ObserveRelayState in external.go.
module Channels {
  datatype Definition = Definition(id: string, title: string, output: int, bands: seq<string>, reserved: bool)

  datatype Level = Unknown | Low | High | Other(value: int)

  datatype Status = Idle | Active | Error

  // Times are counted from 1; 0 is the zero time.
  datatype Channel = Channel(
    def: Definition,
    enabled: bool,
    actual: Level,
    desired: Level,
    status: Status,
    lastError: string,
    commandedAt: nat,
    readAt: nat,
    relayObservedAt: nat,
    softwareControlled: bool)

  function NewChannel(def: Definition): Channel {
    Channel(def, false, Unknown, Low, Idle, "", 0, 0, 0, false)
  }

  // The published view of a channel.
  datatype Dto = Dto(def: Definition, enabled: bool, actual: Level, desired: Level, status: Status, lastError: string)

  function ToDto(c: Channel): Dto { Dto(c.def, c.enabled, c.actual, c.desired, c.status, c.lastError) }

  predicate SameButError(a: Dto, b: Dto) { a.(lastError := b.lastError) == b }

  function LevelOf(value: int): Level { if value == 0 then Low else if value == 1 then High else Other(value) }

  function WithLevel(c: Channel, value: int): Channel {
    c.(enabled := value != 0, actual := LevelOf(value), status := if value != 0 then Active else Idle)
  }

  function Unobserved(c: Channel, message: string): Channel {
    c.(enabled := false, actual := Unknown, status := Error, lastError := message)
  }

  // ---- what happened to a channel ----

  datatype Outcome = Value(value: int) | Failure(message: string)

  // What was seen: by a direct read, or by a frame of the monitor, whose failures count as frames.
  datatype Evidence = Evidence(read: bool, at: nat, enabled: bool, actual: Level)

  function Seen(read: bool, at: nat, outcome: Outcome): Evidence {
    match outcome
    case Value(value) => Evidence(read, at, value != 0, LevelOf(value))
    case Failure(_) => Evidence(read, at, false, Unknown)
  }

  // Acknowledged software switch-ons, and sightings of the channel being low.
  datatype Touch = SwitchedOn | SeenLow

  // `offline`: the level was overwritten, without a time, because the relay was known offline.
  datatype History = History(evidence: seq<Evidence>, offline: bool, touches: seq<Touch>)

  predicate OwnedBySoftware(h: History) { h.touches != [] && h.touches[|h.touches| - 1] == SwitchedOn }

  function Touched(h: History, t: Touch): History { h.(touches := h.touches + [t]) }

  function WithEvidence(h: History, e: Evidence): History { h.(evidence := h.evidence + [e]) }

  // ---- the events ----

  function AfterRead(c: Channel, now: nat, outcome: Outcome): Channel {
    match outcome
    case Failure(message) => Unobserved(c, message).(readAt := now)
    case Value(value) =>
      var d := WithLevel(c, value).(readAt := now, lastError := "");
      if value == 0 then d.(softwareControlled := false) else d
  }

  // The view cached after a read keeps the error text from before a successful one.
  function ReadDto(c: Channel, outcome: Outcome): Dto {
    match outcome
    case Failure(message) => ToDto(Unobserved(c, message))
    case Value(value) => ToDto(WithLevel(c, value))
  }

  function HistoryRead(h: History, now: nat, outcome: Outcome): History {
    var k := WithEvidence(h, Seen(true, now, outcome)).(offline := false);
    if outcome == Value(0) then Touched(k, SeenLow) else k
  }

  // Frames wait in a queue: only one newer than the last read and not older than the last frame
  // counts.
  predicate FrameCounts(c: Channel, at: nat) {
    at > c.readAt && at >= c.relayObservedAt && (c.commandedAt == 0 || at > c.commandedAt)
  }

  function AfterFrame(c: Channel, at: nat, outcome: Outcome): Channel {
    match outcome
    case Failure(message) => Unobserved(c, message).(relayObservedAt := at)
    case Value(value) => WithLevel(c, value).(relayObservedAt := at, lastError := "")
  }

  function HistoryFrame(c: Channel, h: History, at: nat, outcome: Outcome): History {
    var k := WithEvidence(h, Seen(false, at, outcome));
    if FrameCounts(c, at) then k.(offline := false) else k
  }

  function AfterOffline(c: Channel, message: string): Channel { Unobserved(c, message) }

  function AfterError(c: Channel, message: string): Channel { c.(status := Error, lastError := message) }

  function AfterSwitchOn(c: Channel, now: nat): Channel {
    c.(enabled := true, commandedAt := now, softwareControlled := true, actual := High, desired := High,
       status := Active, lastError := "")
  }

  function AfterSwitchOff(c: Channel, now: nat): Channel {
    c.(enabled := false, commandedAt := now, softwareControlled := false,
       actual := Low, desired := Low, status := Idle, lastError := "")
  }

  // ---- what holds ----

  function Max(a: nat, b: nat): nat { if a > b then a else b }

  // Entry k is the latest: by time, then a read before a frame, then by arrival.
  predicate Beats(ev: seq<Evidence>, k: nat, j: nat)
    requires k < |ev| && j < |ev|
  {
    ev[j].at < ev[k].at
    || (ev[j].at == ev[k].at && (if ev[j].read == ev[k].read then j <= k else ev[k].read))
  }

  predicate Latest(ev: seq<Evidence>, k: nat) {
    k < |ev| && forall j | 0 <= j < |ev| :: Beats(ev, k, j)
  }

  lemma LatestUnique(ev: seq<Evidence>, k: nat, l: nat)
    requires Latest(ev, k) && Latest(ev, l)
    ensures k == l
  {
    assert Beats(ev, k, l) && Beats(ev, l, k);
  }

  predicate Shows(c: Channel, e: Evidence) { c.enabled == e.enabled && c.actual == e.actual }

  // Holds at every moment, also between a command and the read that follows it; the flag and the
  // level never disagree.
  predicate Based(c: Channel, h: History, clock: nat) {
    && (c.enabled <==> c.actual != Unknown && c.actual != Low)
    && c.commandedAt <= clock && c.readAt <= clock && c.relayObservedAt <= clock
    && (c.softwareControlled <==> OwnedBySoftware(h))
    && forall i | 0 <= i < |h.evidence| ::
         h.evidence[i].at <= clock && (h.evidence[i].read ==> h.evidence[i].at <= c.readAt)
  }

  // Entry k is the latest evidence, and the channel's times say so.
  predicate Newest(c: Channel, ev: seq<Evidence>, k: nat) {
    && Latest(ev, k)
    && ev[k].at == Max(c.readAt, c.relayObservedAt)
    && (ev[k].read <==> c.readAt >= c.relayObservedAt)
  }

  // The level is that of the latest evidence delivered so far, however late frames arrive, unless
  // the relay has been marked offline since that evidence.
  ghost predicate LevelIsLatest(c: Channel, h: History) {
    if h.evidence == [] then !c.enabled && c.actual == Unknown && c.readAt == c.relayObservedAt == 0
    else exists k: nat ::
      Newest(c, h.evidence, k) && if h.offline then !c.enabled && c.actual == Unknown else Shows(c, h.evidence[k])
  }

  ghost predicate Sound(c: Channel, h: History, clock: nat) {
    && Based(c, h, clock)
    && c.commandedAt <= c.readAt
    && (forall i | 0 <= i < |h.evidence| :: h.evidence[i].at <= Max(c.readAt, c.relayObservedAt))
    && LevelIsLatest(c, h)
  }

  // Software owns a channel exactly if it has been switched on and not been seen low since.
  lemma OwnedSinceSwitchOn(h: History)
    ensures OwnedBySoftware(h) <==>
      exists i | 0 <= i < |h.touches| :: h.touches[i] == SwitchedOn && forall j | i < j < |h.touches| :: h.touches[j] != SeenLow
  {
    if OwnedBySoftware(h) {
      assert h.touches[|h.touches| - 1] == SwitchedOn;
    } else if h.touches != [] {
      assert h.touches[|h.touches| - 1] == SeenLow;
    }
  }

  // The latest evidence gives the level.
  lemma LatestShown(c: Channel, h: History, clock: nat, k: nat)
    requires Sound(c, h, clock) && Latest(h.evidence, k)
    ensures if h.offline then !c.enabled && c.actual == Unknown else Shows(c, h.evidence[k])
  {
    var l: nat :| Newest(c, h.evidence, l)
      && if h.offline then !c.enabled && c.actual == Unknown else Shows(c, h.evidence[l]);
    LatestUnique(h.evidence, k, l);
  }

  // The list shows a channel just read exactly, unless the read succeeded and the channel still had
  // an error text: then the entry keeps that text until the channel is listed again.
  lemma ReadListedExactly(c: Channel, now: nat, outcome: Outcome)
    ensures ReadDto(c, outcome) == ToDto(AfterRead(c, now, outcome)) <==> outcome.Failure? || c.lastError == ""
  {}

  // A channel whose last command failed, and that is then read as low.
  lemma StaleErrorListed(def: Definition)
    ensures
      var c := AfterError(NewChannel(def), "refused");
      && ReadDto(c, Value(0)).lastError == "refused" && AfterRead(c, 1, Value(0)).lastError == ""
      && ReadDto(c, Value(0)) != ToDto(AfterRead(c, 1, Value(0)))
  {}

  // The level, as an outcome gives it.
  predicate ShowsOutcome(c: Channel, outcome: Outcome) {
    match outcome
    case Failure(message) => c.actual == Unknown && !c.enabled && c.status == Error && c.lastError == message
    case Value(value) =>
      && c.lastError == "" && c.enabled == (value != 0) && c.status == (if value == 0 then Idle else Active)
      && c.actual == if value == 0 then Low else if value == 1 then High else Other(value)
  }

  // A read: the level it gives, and no more software control if that is low.
  lemma ReadShows(c: Channel, now: nat, outcome: Outcome)
    ensures
      var d := AfterRead(c, now, outcome);
      && ShowsOutcome(d, outcome) && d.readAt == now
      && d.softwareControlled == (c.softwareControlled && outcome != Value(0))
      && d.def == c.def && d.desired == c.desired && d.commandedAt == c.commandedAt && d.relayObservedAt == c.relayObservedAt
  {}

  // An acknowledged command, and the read after it. An older error text is gone before that read.
  lemma CommandShows(c: Channel, at: nat, now: nat, outcome: Outcome)
    ensures
      var d := AfterRead(AfterSwitchOn(c, at), now, outcome);
      && ShowsOutcome(d, outcome) && d.readAt == now && d.commandedAt == at && d.desired == High
      && d.softwareControlled == (outcome != Value(0)) && d.def == c.def && d.relayObservedAt == c.relayObservedAt
    ensures
      var d := AfterRead(AfterSwitchOff(c, at), now, outcome);
      && ShowsOutcome(d, outcome) && d.readAt == now && d.commandedAt == at && d.desired == Low
      && !d.softwareControlled && d.def == c.def && d.relayObservedAt == c.relayObservedAt
    ensures outcome.Value? ==> ReadDto(AfterSwitchOn(c, at), outcome) == ToDto(AfterRead(AfterSwitchOn(c, at), now, outcome))
    ensures outcome.Value? ==> ReadDto(AfterSwitchOff(c, at), outcome) == ToDto(AfterRead(AfterSwitchOff(c, at), now, outcome))
  {}

  // An offline marking leaves no level, a failed command the level alone; neither touches the times
  // or software control.
  lemma FailureShows(c: Channel, message: string)
    ensures ShowsOutcome(AfterOffline(c, message), Failure(message))
    ensures AfterOffline(c, message) ==
      c.(actual := Unknown, enabled := false, status := AfterOffline(c, message).status, lastError := message)
    ensures AfterError(c, message).status == Error && AfterError(c, message).lastError == message
    ensures AfterError(c, message).(status := c.status, lastError := c.lastError) == c
  {}

  // The published view shows the channel's own fields.
  lemma DtoShows(c: Channel)
    ensures
      var d := ToDto(c);
      && d.def == c.def && d.enabled == c.enabled && d.actual == c.actual && d.desired == c.desired
      && d.status == c.status && d.lastError == c.lastError
  {}

  // Reads and commands leave the time of the last message alone.
  lemma ReadKeepsTimes(c: Channel, now: nat, outcome: Outcome)
    ensures AfterRead(c, now, outcome).relayObservedAt == c.relayObservedAt
  {}

  lemma SwitchKeepsTimes(c: Channel, now: nat)
    ensures AfterSwitchOn(c, now).relayObservedAt == c.relayObservedAt
    ensures AfterSwitchOff(c, now).relayObservedAt == c.relayObservedAt
  {}

  lemma NewSound(def: Definition, clock: nat)
    ensures Sound(NewChannel(def), History([], false, []), clock)
  {}

  lemma LaterSound(c: Channel, h: History, clock: nat, now: nat)
    requires clock <= now
    ensures Based(c, h, clock) ==> Based(c, h, now)
    ensures Sound(c, h, clock) ==> Sound(c, h, now)
  {}

  // A read settles the level, whatever the state was before.
  lemma ReadSound(c: Channel, h: History, clock: nat, now: nat, outcome: Outcome)
    requires Based(c, h, clock) && clock <= now
    ensures Sound(AfterRead(c, now, outcome), HistoryRead(h, now, outcome), now)
  {
    assert Newest(AfterRead(c, now, outcome), HistoryRead(h, now, outcome).evidence, |h.evidence|);
  }

  // A frame counts exactly when it is the latest evidence on arrival; then it is shown, and
  // otherwise it changes nothing.
  lemma FrameSound(c: Channel, h: History, clock: nat, at: nat, outcome: Outcome)
    requires Sound(c, h, clock) && 0 < at <= clock
    ensures Sound(if FrameCounts(c, at) then AfterFrame(c, at, outcome) else c, HistoryFrame(c, h, at, outcome), clock)
    ensures FrameCounts(c, at) <==> Latest(HistoryFrame(c, h, at, outcome).evidence, |h.evidence|)
  {
    var ev := HistoryFrame(c, h, at, outcome).evidence;
    var n := |h.evidence|;
    if FrameCounts(c, at) {
      assert Newest(AfterFrame(c, at, outcome), ev, n);
    } else {
      var k: nat :| Newest(c, h.evidence, k)
        && if h.offline then !c.enabled && c.actual == Unknown else Shows(c, h.evidence[k]);
      assert !Beats(ev, n, k) && Beats(ev, k, n);
      forall j | 0 <= j < |ev|
        ensures Beats(ev, k, j)
      {
        if j < n {
          assert Beats(h.evidence, k, j);
        }
      }
      assert Newest(c, ev, k);
    }
  }

  lemma OfflineSound(c: Channel, h: History, clock: nat, message: string)
    requires Sound(c, h, clock)
    ensures Sound(AfterOffline(c, message), h.(offline := true), clock)
  {}

  lemma ErrorSound(c: Channel, h: History, clock: nat, message: string)
    requires Sound(c, h, clock)
    ensures Sound(AfterError(c, message), h, clock)
  {}

  lemma SwitchedSound(c: Channel, h: History, clock: nat, now: nat)
    requires Based(c, h, clock) && clock <= now
    ensures Based(AfterSwitchOn(c, now), Touched(h, SwitchedOn), now)
    ensures Based(AfterSwitchOff(c, now), Touched(h, SeenLow), now)
  {}

  lemma ReleasedSound(c: Channel, h: History, clock: nat)
    requires Sound(c, h, clock)
    ensures Sound(c.(softwareControlled := false), Touched(h, SeenLow), clock)
  {}
}
