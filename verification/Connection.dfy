// The MQTT connection of the strike protocol: one timer goroutine connects and subscribes in many
// small steps, while settings changes and reconnect requests arrive at any moment and advance a
// generation counter. Models ApplySettings, Reconnect, tick, ensureSubscriptions and the
// generation-guarded setters of internal/counterstrike/service.go, one step per critical section
// or transport call.
module Connection {
  import opened Bytes

  const LEGACY_TOPIC := "platform/counter/strike/down"
  const RETRY_DELAY := 10_000

  datatype Settings = Settings(enabled: bool, complete: bool, controlTopic: string, rest: string)

  // The timer goroutine's position in tick; all but Idle carry its snapshot.
  datatype Phase =
    | Decide                    // snapshot taken
    | Closing                   // disabled or incomplete: transport closed, status not yet updated
    | Unlinked                  // the transport was seen disconnected
    | Resetting                 // no retry delay pending, subscriptions not yet reset
    | Reset                     // subscriptions reset, status not yet "connecting"
    | Connecting                // about to connect
    | Connected_(ok: bool)      // the attempt ended, generation not yet checked
    | Ensure                    // about to look at the subscriptions
    | Subscribe(next: nat)      // about to subscribe to topic number `next`
    | Subscribed_(done: nat)    // topic acknowledged, generation not yet checked
    | Refused                   // subscription failed, generation not yet checked
    | Aborting                  // about to close the transport after a failed subscription
    | Failing                   // about to record a failure
    | Succeed                   // about to record success

  datatype Tick = Idle | Active(phase: Phase, settings: Settings, generation: nat)

  datatype Ack = Ack(generation: nat, connection: nat, topic: string)

  // The fields under the service's lock.
  datatype Status = Status(
    settings: Settings,
    settingsKey: Option<Settings>,  // the fingerprint: the settings it was computed from
    generation: nat,
    subscribed: bool,
    nextAttempt: nat,               // 0: no retry delay
    connected: bool,
    connecting: bool,
    // histories: the generation of the last recorded success and failure
    connectedBy: Option<nat>,
    failedBy: Option<nat>)

  datatype State = State(
    status: Status,
    live: bool,                     // transport.Connected()
    connections: nat,               // connections opened so far; the last is the live one
    closing: nat,                   // Disconnect calls still to come after a settings change
    tick: Tick,
    acks: set<Ack>)                 // history of acknowledged subscriptions

  datatype Step =
    | Apply(next: Settings)
    | RequestReconnect
    | Disconnect                    // a pending Disconnect call
    | LinkLost
    | TickStart
    | TickStep(ok: bool, now: nat)  // the outcome of a transport call, the clock

  function Topic(settings: Settings, i: nat): string {
    if i == 0 then settings.controlTopic else LEGACY_TOPIC
  }

  predicate Changes(s: Status, next: Settings) { s.settingsKey != Some(next) }

  function Applied(s: Status, next: Settings): Status {
    var t := s.(settings := next, settingsKey := Some(next));
    if Changes(s, next) then
      t.(generation := s.generation + 1, subscribed := false, nextAttempt := 0, connected := false,
         connecting := next.enabled && next.complete)
    else t
  }

  predicate CanReconnect(s: Status) { s.settings.enabled && s.settings.complete }

  function Reconnected(s: Status): Status {
    if !CanReconnect(s) then s
    else
      s.(generation := s.generation + 1, subscribed := false, nextAttempt := 0, connected := false, connecting := true)
  }

  // The guarded setters: without the current generation they change nothing.
  function WithState(s: Status, generation: nat, connected: bool, connecting: bool): Status {
    if s.generation != generation then s else s.(connected := connected, connecting := connecting)
  }

  function WithSuccess(s: Status, generation: nat): Status {
    if s.generation != generation then s
    else s.(nextAttempt := 0, connected := true, connecting := false, connectedBy := Some(generation))
  }

  function WithFailure(s: Status, generation: nat, nextAttempt: nat): Status {
    if s.generation != generation then s
    else s.(nextAttempt := nextAttempt, connected := false, connecting := false, failedBy := Some(generation))
  }

  function WithSubscribed(s: Status, generation: nat, subscribed: bool): Status {
    if s.generation != generation then s else s.(subscribed := subscribed)
  }

  predicate RetryPending(s: Status, generation: nat, now: nat) {
    s.generation != generation || (s.nextAttempt != 0 && now < s.nextAttempt)
  }

  // The service's fields as the object it is, each method one critical section.
  class Service {
    var settings: Settings
    var settingsKey: Option<Settings>
    var connectionGeneration: nat
    var subscribed: bool
    var nextConnectAttemptAt: nat
    var connected: bool
    var connecting: bool
    ghost var connectedBy: Option<nat>
    ghost var failedBy: Option<nat>

    ghost function View(): Status
      reads this
    {
      Status(settings, settingsKey, connectionGeneration, subscribed, nextConnectAttemptAt, connected, connecting,
             connectedBy, failedBy)
    }

    constructor (zero: Settings, first: Settings)
      ensures View() == Applied(Blank(zero), first)
    {
      settings, settingsKey, connectionGeneration, subscribed, nextConnectAttemptAt := zero, None, 0, false, 0;
      connected, connecting, connectedBy, failedBy := false, false, None, None;
      new;
      var changed := ApplySettings(first);
    }

    // Answers whether the transport has to be disconnected afterwards.
    method ApplySettings(next: Settings) returns (changed: bool)
      modifies this
      ensures View() == Applied(old(View()), next)
      ensures changed == Changes(old(View()), next)
      ensures changed <==> old(settingsKey) != Some(next)
      ensures settings == next && settingsKey == Some(next) && connectedBy == old(connectedBy) && failedBy == old(failedBy)
      ensures connectionGeneration == old(connectionGeneration) + if changed then 1 else 0
      ensures changed ==> !subscribed && nextConnectAttemptAt == 0 && !connected && connecting == (next.enabled && next.complete)
      ensures !changed ==> subscribed == old(subscribed) && nextConnectAttemptAt == old(nextConnectAttemptAt)
      ensures !changed ==> connected == old(connected) && connecting == old(connecting)
    {
      changed := settingsKey != Some(next);
      settings := next;
      settingsKey := Some(next);
      if changed {
        connectionGeneration := connectionGeneration + 1;
        subscribed := false;
        nextConnectAttemptAt := 0;
        connected := false;
        connecting := next.enabled && next.complete;
      }
    }

    method Reconnect() returns (accepted: bool)
      modifies this
      ensures View() == Reconnected(old(View()))
      ensures accepted == CanReconnect(old(View()))
      ensures accepted <==> old(settings).enabled && old(settings).complete
      ensures !accepted ==> View() == old(View())
      ensures accepted ==> connectionGeneration == old(connectionGeneration) + 1 && settings == old(settings)
      ensures accepted ==> !subscribed && nextConnectAttemptAt == 0 && !connected && connecting
    {
      if !settings.enabled || !settings.complete {
        return false;
      }
      connectionGeneration := connectionGeneration + 1;
      subscribed := false;
      nextConnectAttemptAt := 0;
      connected := false;
      connecting := true;
      return true;
    }

    method SetConnectionState(generation: nat, connected: bool, connecting: bool) returns (current: bool)
      modifies this
      ensures View() == WithState(old(View()), generation, connected, connecting)
      ensures current == (generation == connectionGeneration == old(connectionGeneration))
      ensures !current ==> View() == old(View())
      ensures current ==> this.connected == connected && this.connecting == connecting
    {
      if connectionGeneration != generation {
        return false;
      }
      this.connected := connected;
      this.connecting := connecting;
      return true;
    }

    method SetConnectionSuccess(generation: nat) returns (current: bool)
      modifies this
      ensures View() == WithSuccess(old(View()), generation)
      ensures current == (generation == connectionGeneration == old(connectionGeneration))
      ensures !current ==> View() == old(View())
      ensures current ==> connected && !connecting && nextConnectAttemptAt == 0 && subscribed == old(subscribed)
    {
      if connectionGeneration != generation {
        return false;
      }
      nextConnectAttemptAt := 0;
      connected := true;
      connecting := false;
      connectedBy := Some(generation);
      return true;
    }

    method SetConnectFailure(generation: nat, nextAttempt: nat) returns (current: bool)
      modifies this
      ensures View() == WithFailure(old(View()), generation, nextAttempt)
      ensures current == (generation == connectionGeneration == old(connectionGeneration))
      ensures !current ==> View() == old(View())
      ensures current ==> !connected && !connecting && nextConnectAttemptAt == nextAttempt && subscribed == old(subscribed)
    {
      if connectionGeneration != generation {
        return false;
      }
      nextConnectAttemptAt := nextAttempt;
      connected := false;
      connecting := false;
      failedBy := Some(generation);
      return true;
    }

    // resetSubscriptions, and the last critical section of ensureSubscriptions.
    method SetSubscribed(generation: nat, value: bool) returns (current: bool)
      modifies this
      ensures View() == WithSubscribed(old(View()), generation, value)
      ensures current == (generation == connectionGeneration == old(connectionGeneration))
      ensures !current ==> View() == old(View())
      ensures current ==> subscribed == value && connected == old(connected)
    {
      if connectionGeneration != generation {
        return false;
      }
      subscribed := value;
      return true;
    }

    method ConnectRetryPending(generation: nat, now: nat) returns (pending: bool)
      ensures pending == RetryPending(View(), generation, now)
      ensures pending <==> connectionGeneration != generation || (nextConnectAttemptAt != 0 && now < nextConnectAttemptAt)
    {
      if connectionGeneration != generation {
        return true;
      }
      pending := nextConnectAttemptAt != 0 && now < nextConnectAttemptAt;
    }
  }

  function At(s: State, phase: Phase): State
    requires s.tick.Active?
  {
    s.(tick := s.tick.(phase := phase))
  }

  function Done(s: State): State { s.(tick := Idle) }

  // One step of tick.
  function Ticked(s: State, ok: bool, now: nat): State
    requires s.tick.Active?
  {
    var t, g := s.tick, s.tick.generation;
    var current := s.status.generation == g;
    match t.phase
    case Decide =>
      if !t.settings.enabled || !t.settings.complete then At(s, Closing).(live := false)
      else if s.live then At(s, Ensure)
      else At(s, Unlinked)
    case Closing => Done(s.(status := WithState(s.status, g, false, false)))
    case Unlinked => if RetryPending(s.status, g, now) then Done(s) else At(s, Resetting)
    case Resetting =>
      if current then At(s.(status := WithSubscribed(s.status, g, false)), Reset) else Done(s)
    case Reset =>
      if current then At(s.(status := WithState(s.status, g, false, true)), Connecting) else Done(s)
    case Connecting =>
      if ok then At(s, Connected_(true)).(live := true, connections := s.connections + 1)
      else At(s, Connected_(false))
    case Connected_(linked) =>
      if !current then Done(s) else if linked then At(s, Ensure) else At(s, Failing)
    case Ensure =>
      if !current then Done(s)
      else if s.status.subscribed then At(s, Succeed)
      else At(s, Subscribe(0))
    case Subscribe(next) =>
      // Only a live connection can acknowledge.
      if ok && s.live then
        At(s, Subscribed_(next)).(acks := s.acks + {Ack(g, s.connections, Topic(t.settings, next))})
      else At(s, Refused)
    case Subscribed_(done) =>
      if !current then Done(s)
      else if done == 0 then At(s, Subscribe(1))
      else At(s.(status := WithSubscribed(s.status, g, true)), Succeed)
    case Refused => if !current then Done(s) else At(s, Aborting)
    case Aborting => At(s, Failing).(live := false)
    case Failing => Done(s.(status := WithFailure(s.status, g, now + RETRY_DELAY)))
    case Succeed => Done(s.(status := WithSuccess(s.status, g)))
  }

  predicate Next(s: State, step: Step, s': State) {
    match step
    case Apply(next) =>
      s' == s.(status := Applied(s.status, next), closing := s.closing + if Changes(s.status, next) then 1 else 0)
    case RequestReconnect =>
      s' == s.(status := Reconnected(s.status), closing := s.closing + if CanReconnect(s.status) then 1 else 0)
    case Disconnect => s.closing > 0 && s' == s.(live := false, closing := s.closing - 1)
    case LinkLost => s' == s.(live := false)
    case TickStart => s.tick.Idle? && s' == s.(tick := Active(Decide, s.status.settings, s.status.generation))
    case TickStep(ok, now) => s.tick.Active? && s' == Ticked(s, ok, now)
  }

  function Blank(zero: Settings): Status { Status(zero, None, 0, false, 0, false, false, None, None) }

  // A new service, whose first act is to apply its settings.
  ghost predicate Init(s: State) {
    exists zero: Settings, first: Settings ::
      s == State(Applied(Blank(zero), first), false, 0, 1, Idle, {})
  }

  predicate AckedNow(s: State, i: nat) {
    Ack(s.status.generation, s.connections, Topic(s.status.settings, i)) in s.acks
  }

  // A snapshot of the current generation is a snapshot of the current settings.
  predicate SnapshotCurrent(s: State) {
    && s.status.settingsKey == Some(s.status.settings)
    && (s.tick.Active? ==> s.tick.generation <= s.status.generation)
    && (s.tick.Active? && s.tick.generation == s.status.generation ==> s.tick.settings == s.status.settings)
  }

  // What the goroutine's position promises.
  predicate PhaseSound(s: State) {
    s.tick.Active? ==>
      && (s.tick.phase in {Reset, Connecting} ==> !s.status.subscribed)
      && (s.tick.phase.Subscribe? ==> s.tick.phase.next <= 1)
      && (s.tick.phase.Subscribed_? ==> s.tick.phase.done <= 1)
      && (s.tick.generation == s.status.generation ==> CurrentPhaseSound(s, s.tick.phase))
  }

  predicate CurrentPhaseSound(s: State, phase: Phase) {
    && (phase == Connecting ==> !s.status.connected)
    && (phase.Connected_? || phase in {Refused, Aborting, Failing} || phase.Subscribe? || phase.Subscribed_?
        ==> !s.status.subscribed)
    && (phase == Subscribe(1) || phase == Subscribed_(0) ==> AckedNow(s, 0))
    && (phase == Subscribed_(1) ==> AckedNow(s, 0) && AckedNow(s, 1))
    && (phase == Succeed ==> s.status.subscribed)
  }

  predicate StatusSound(s: State) {
    && (s.status.connected ==> s.status.connectedBy == Some(s.status.generation))
    && (s.status.nextAttempt != 0 ==> s.status.failedBy == Some(s.status.generation))
    && (s.status.subscribed ==> AckedNow(s, 0) && AckedNow(s, 1))
    && (s.status.connected ==>
          s.status.subscribed || (s.tick.Active? && s.tick.phase == Reset && s.tick.generation == s.status.generation))
  }

  predicate Invariant(s: State) { SnapshotCurrent(s) && PhaseSound(s) && StatusSound(s) }

  lemma InitSound(s: State)
    requires Init(s)
    ensures Invariant(s)
  {}

  lemma EarlySound(s: State, ok: bool, now: nat)
    requires Invariant(s) && s.tick.Active? && s.tick.phase in {Decide, Unlinked}
    ensures Invariant(Ticked(s, ok, now))
  {}

  lemma ClosingSound(s: State, ok: bool, now: nat)
    requires Invariant(s) && s.tick.Active? && s.tick.phase == Closing
    ensures Invariant(Ticked(s, ok, now))
  {}

  lemma ResetSound(s: State, ok: bool, now: nat)
    requires Invariant(s) && s.tick.Active? && s.tick.phase in {Resetting, Reset}
    ensures Invariant(Ticked(s, ok, now))
  {}

  lemma ConnectSound(s: State, ok: bool, now: nat)
    requires Invariant(s) && s.tick.Active? && (s.tick.phase == Connecting || s.tick.phase.Connected_?)
    ensures Invariant(Ticked(s, ok, now))
  {}

  lemma SubscribeSound(s: State, ok: bool, now: nat)
    requires Invariant(s) && s.tick.Active? && (s.tick.phase == Ensure || s.tick.phase.Subscribe?)
    ensures Invariant(Ticked(s, ok, now))
  {}

  lemma SubscribedSound(s: State, ok: bool, now: nat)
    requires Invariant(s) && s.tick.Active? && s.tick.phase.Subscribed_?
    ensures Invariant(Ticked(s, ok, now))
  {}

  lemma EndSound(s: State, ok: bool, now: nat)
    requires Invariant(s) && s.tick.Active? && s.tick.phase in {Refused, Aborting, Failing, Succeed}
    ensures Invariant(Ticked(s, ok, now))
  {}

  lemma TickSound(s: State, ok: bool, now: nat)
    requires Invariant(s) && s.tick.Active?
    ensures Invariant(Ticked(s, ok, now))
  {
    match s.tick.phase {
      case Decide | Unlinked => EarlySound(s, ok, now);
      case Closing => ClosingSound(s, ok, now);
      case Resetting | Reset => ResetSound(s, ok, now);
      case Connecting | Connected_(_) => ConnectSound(s, ok, now);
      case Ensure | Subscribe(_) => SubscribeSound(s, ok, now);
      case Subscribed_(_) => SubscribedSound(s, ok, now);
      case Refused | Aborting | Failing | Succeed => EndSound(s, ok, now);
    }
  }

  lemma StepSound(s: State, step: Step, s': State)
    requires Invariant(s) && Next(s, step, s')
    ensures Invariant(s')
  {
    if step.TickStep? {
      TickSound(s, step.ok, step.now);
    }
  }

  datatype Run = Run(states: seq<State>, steps: seq<Step>)

  ghost predicate Valid(r: Run) {
    && |r.states| == |r.steps| + 1
    && Init(r.states[0])
    && forall i | 0 <= i < |r.steps| :: Next(r.states[i], r.steps[i], r.states[i + 1])
  }

  lemma {:induction false} EveryStateSound(r: Run, i: nat)
    requires Valid(r) && i < |r.states|
    ensures Invariant(r.states[i])
  {
    if i == 0 {
      InitSound(r.states[0]);
    } else {
      EveryStateSound(r, i - 1);
      StepSound(r.states[i - 1], r.steps[i - 1], r.states[i]);
    }
  }

  // In every interleaving: Connected was set by a success of the current generation; a retry delay
  // by a failure of the current generation; and `subscribed` means that both topics of the
  // current settings were acknowledged under the current generation, on the last connection.
  lemma StatusMeansCurrent(r: Run, i: nat)
    requires Valid(r) && i < |r.states|
    ensures
      var s := r.states[i];
      && (s.status.connected ==> s.status.connectedBy == Some(s.status.generation))
      && (s.status.nextAttempt != 0 ==> s.status.failedBy == Some(s.status.generation))
      && (s.status.subscribed ==>
            && Ack(s.status.generation, s.connections, s.status.settings.controlTopic) in s.acks
            && Ack(s.status.generation, s.connections, LEGACY_TOPIC) in s.acks)
      && (s.status.connected && s.tick.Idle? ==> s.status.subscribed)
  {
    EveryStateSound(r, i);
  }

  // ---- a tick that nothing disturbs ----

  // At most n steps of the tick, with every transport call answered `ok`.
  function TickRun(s: State, n: nat, ok: bool, now: nat): State
    decreases n
  {
    if n == 0 || s.tick.Idle? then s else TickRun(Ticked(s, ok, now), n - 1, ok, now)
  }

  lemma TickRunStep(s: State, n: nat, ok: bool, now: nat)
    requires s.tick.Active? && n > 0
    ensures TickRun(s, n, ok, now) == TickRun(Ticked(s, ok, now), n - 1, ok, now)
  {}

  lemma TickRunEnd(s: State, n: nat, ok: bool, now: nat)
    requires s.tick.Idle?
    ensures TickRun(s, n, ok, now) == s
  {}

  function Started(s: State): State {
    s.(tick := Active(Decide, s.status.settings, s.status.generation))
  }

  // A whole tick takes twelve steps at most.
  function WholeTick(s: State, ok: bool, now: nat): State { TickRun(Started(s), 12, ok, now) }

  predicate Wanted(s: State) { s.status.settings.enabled && s.status.settings.complete }

  predicate Waiting(s: State, now: nat) { s.status.nextAttempt != 0 && now < s.status.nextAttempt }

  // A tick of the current snapshot.
  predicate Ticking(s: State, phase: Phase) { s.tick == Active(phase, s.status.settings, s.status.generation) }

  // Connected and subscribed to both topics over the live connection.
  predicate InService(s: State, t: State) {
    && t.tick.Idle? && t.live && t.connections == s.connections
    && t.status.connected && !t.status.connecting && t.status.nextAttempt == 0 && t.status.subscribed
    && t.status.generation == s.status.generation && t.status.settings == s.status.settings
    && t.acks == if s.status.subscribed then s.acks
                 else s.acks + {Ack(s.status.generation, s.connections, s.status.settings.controlTopic),
                                Ack(s.status.generation, s.connections, "platform/counter/strike/down")}
  }

  lemma EnsuredTick(s: State, n: nat, now: nat)
    requires Ticking(s, Ensure) && s.live && n >= 6
    ensures InService(s, TickRun(s, n, true, now))
  {
    hide TickRun;
    TickRunStep(s, n, true, now);
    if s.status.subscribed {
      var t1 := At(s, Succeed);
      TickRunStep(t1, n - 1, true, now);
      TickRunEnd(Ticked(t1, true, now), n - 2, true, now);
    } else {
      var first := Ack(s.status.generation, s.connections, s.status.settings.controlTopic);
      var control := At(s, Subscribed_(0)).(acks := s.acks + {first});
      TickRunStep(At(s, Subscribe(0)), n - 1, true, now);
      TickRunStep(control, n - 2, true, now);
      TickRunStep(At(control, Subscribe(1)), n - 3, true, now);
      var both := Ticked(At(control, Subscribe(1)), true, now);
      TickRunStep(both, n - 4, true, now);
      TickRunStep(Ticked(both, true, now), n - 5, true, now);
      TickRunEnd(Ticked(Ticked(both, true, now), true, now), n - 6, true, now);
      assert both.acks == s.acks + {first, Ack(s.status.generation, s.connections, "platform/counter/strike/down")};
    }
  }

  // Without a connection a tick gets to the attempt, with no subscription left.
  lemma TickReachesConnecting(s: State, ok: bool, now: nat) returns (t: State)
    requires s.tick.Idle? && Wanted(s) && !s.live && !Waiting(s, now)
    ensures Ticking(t, Connecting) && TickRun(Started(s), 12, ok, now) == TickRun(t, 8, ok, now)
    ensures t == s.(tick := t.tick, status := s.status.(subscribed := false, connected := false, connecting := true))
  {
    hide TickRun;
    var t0 := Started(s);
    TickRunStep(t0, 12, ok, now);
    TickRunStep(At(t0, Unlinked), 11, ok, now);
    TickRunStep(At(t0, Resetting), 10, ok, now);
    var reset := Ticked(At(t0, Resetting), ok, now);
    TickRunStep(reset, 9, ok, now);
    t := Ticked(reset, ok, now);
  }

  // Nothing fails: the service ends up connected and subscribed to both topics, over a new
  // connection if there was none.
  lemma HealthyTickConnects(s: State, now: nat)
    requires s.tick.Idle? && Wanted(s) && (s.live || !Waiting(s, now))
    ensures InService(if s.live then s else s.(connections := s.connections + 1, status := s.status.(subscribed := false)),
                      WholeTick(s, true, now))
  {
    hide TickRun, InService;
    if s.live {
      TickRunStep(Started(s), 12, true, now);
      EnsuredTick(At(Started(s), Ensure), 11, now);
      SameService(At(Started(s), Ensure), s, WholeTick(s, true, now));
    } else {
      var t := TickReachesConnecting(s, true, now);
      TickRunStep(t, 8, true, now);
      var linked := Ticked(t, true, now);
      TickRunStep(linked, 7, true, now);
      EnsuredTick(At(linked, Ensure), 6, now);
      SameService(At(linked, Ensure), s.(connections := s.connections + 1, status := s.status.(subscribed := false)),
        WholeTick(s, true, now));
    }
  }

  lemma SameService(a: State, b: State, t: State)
    requires InService(a, t) && a.connections == b.connections && a.acks == b.acks
    requires a.status.generation == b.status.generation && a.status.settings == b.status.settings
    requires a.status.subscribed == b.status.subscribed
    ensures InService(b, t)
  {}

  // The connection cannot be opened, or a subscription is refused: it is closed, and the next attempt
  // is due ten seconds later.
  lemma FailingTickRetries(s: State, now: nat)
    requires s.tick.Idle? && Wanted(s) && !(s.live && s.status.subscribed) && (s.live || !Waiting(s, now))
    ensures
      var t := WholeTick(s, false, now);
      && t.tick.Idle? && !t.live && !t.status.connected && !t.status.connecting && !t.status.subscribed
      && t.status.nextAttempt == now + 10_000 && t.status.failedBy == Some(s.status.generation)
      && t.status.generation == s.status.generation && t.connections == s.connections
  {
    hide TickRun;
    if s.live {
      var t0 := Started(s);
      TickRunStep(t0, 12, false, now);
      TickRunStep(At(t0, Ensure), 11, false, now);
      TickRunStep(At(t0, Subscribe(0)), 10, false, now);
      TickRunStep(At(t0, Refused), 9, false, now);
      TickRunStep(At(t0, Aborting), 8, false, now);
      TickRunStep(At(t0, Failing).(live := false), 7, false, now);
      TickRunEnd(Ticked(At(t0, Failing).(live := false), false, now), 6, false, now);
    } else {
      var t := TickReachesConnecting(s, false, now);
      TickRunStep(t, 8, false, now);
      TickRunStep(At(t, Connected_(false)), 7, false, now);
      TickRunStep(At(t, Failing), 6, false, now);
      TickRunEnd(Ticked(At(t, Failing), false, now), 5, false, now);
    }
  }

  // Before that time a tick without a connection does nothing; one that is not wanted disconnects.
  lemma OtherTicks(s: State, ok: bool, now: nat)
    requires s.tick.Idle?
    ensures Wanted(s) && !s.live && Waiting(s, now) ==> WholeTick(s, ok, now) == s
    ensures !Wanted(s) ==>
      WholeTick(s, ok, now) == s.(live := false, status := s.status.(connected := false, connecting := false))
  {
    hide TickRun;
    var t0 := Started(s);
    TickRunStep(t0, 12, ok, now);
    if !Wanted(s) {
      TickRunStep(At(t0, Closing).(live := false), 11, ok, now);
      TickRunEnd(Ticked(At(t0, Closing).(live := false), ok, now), 10, ok, now);
    } else if !s.live && Waiting(s, now) {
      TickRunStep(At(t0, Unlinked), 11, ok, now);
      TickRunEnd(Ticked(At(t0, Unlinked), ok, now), 10, ok, now);
    }
  }

  predicate Reconfigures(s: State, step: Step) {
    (step.Apply? && Changes(s.status, step.next)) || (step.RequestReconnect? && CanReconnect(s.status))
  }

  // After the settings change or a reconnect is asked for, whatever a tick of an older snapshot
  // still does leaves the status alone until a newer tick runs.
  predicate Untouched(a: State, b: State) { b.status == a.status }

  predicate Stale(s: State) { s.tick.Active? ==> s.tick.generation != s.status.generation }

  lemma StaleEarly(s: State, ok: bool, now: nat)
    requires s.tick.Active? && Stale(s)
    requires s.tick.phase in {Decide, Closing, Unlinked, Resetting, Reset, Connecting} || s.tick.phase.Connected_?
    ensures Untouched(s, Ticked(s, ok, now)) && Stale(Ticked(s, ok, now))
  {}

  lemma StaleLate(s: State, ok: bool, now: nat)
    requires s.tick.Active? && Stale(s)
    requires s.tick.phase in {Ensure, Refused, Aborting, Failing, Succeed} || s.tick.phase.Subscribe? || s.tick.phase.Subscribed_?
    ensures Untouched(s, Ticked(s, ok, now)) && Stale(Ticked(s, ok, now))
  {}

  lemma StaleStep(s: State, step: Step, s': State)
    requires SnapshotCurrent(s) && Next(s, step, s') && Stale(s)
    requires !Reconfigures(s, step) && step != TickStart
    ensures Untouched(s, s') && Stale(s')
  {
    if step.TickStep? {
      match s.tick.phase {
        case Decide | Closing | Unlinked | Resetting | Reset | Connecting | Connected_(_) =>
          StaleEarly(s, step.ok, step.now);
        case Ensure | Refused | Aborting | Failing | Succeed | Subscribe(_) | Subscribed_(_) =>
          StaleLate(s, step.ok, step.now);
      }
    }
  }

  ghost predicate NothingNew(r: Run, i: nat, j: nat)
    requires Valid(r) && i <= j < |r.states|
  {
    forall k | i <= k < j :: !Reconfigures(r.states[k], r.steps[k]) && r.steps[k] != TickStart
  }

  lemma {:induction false} StaleTickIsHarmless(r: Run, i: nat, j: nat)
    requires Valid(r) && i <= j < |r.states| && Stale(r.states[i])
    requires NothingNew(r, i, j)
    ensures Untouched(r.states[i], r.states[j]) && Stale(r.states[j])
    decreases j
  {
    if i < j {
      StaleTickIsHarmless(r, i, j - 1);
      EveryStateSound(r, j - 1);
      var k := j - 1;
      assert !Reconfigures(r.states[k], r.steps[k]);
      StaleStep(r.states[k], r.steps[k], r.states[k + 1]);
    }
  }

  // How many Disconnect calls are owed: one for the first settings, one more for every change and
  // every reconnect, one less for each made.
  ghost function Owed(r: Run, i: nat): int
    requires i < |r.states| && |r.states| == |r.steps| + 1
  {
    if i == 0 then 1
    else
      Owed(r, i - 1) - (if r.steps[i - 1] == Disconnect then 1 else 0)
      + match r.steps[i - 1]
        case Apply(next) => if r.states[i - 1].status.settingsKey != Some(next) then 1 else 0
        case RequestReconnect =>
          if r.states[i - 1].status.settings.enabled && r.states[i - 1].status.settings.complete then 1 else 0
        case _ => 0
  }

  // Every change of settings and every reconnect closes the connection once. Nothing else does but a
  // lost link or a tick, and nothing but a tick opens one (LinkSteps).
  lemma {:induction false} ClosedOncePerChange(r: Run, i: nat)
    requires Valid(r) && i < |r.states|
    ensures r.states[i].closing == Owed(r, i)
  {
    hide Ticked, Applied, Reconnected;
    if i > 0 {
      ClosedOncePerChange(r, i - 1);
      assert Next(r.states[i - 1], r.steps[i - 1], r.states[i]);
      if r.steps[i - 1].TickStep? {
        TickClosesNothing(r.states[i - 1], r.steps[i - 1].ok, r.steps[i - 1].now);
      }
    }
  }

  lemma TickClosesNothing(s: State, ok: bool, now: nat)
    requires s.tick.Active?
    ensures Ticked(s, ok, now).closing == s.closing
  {
    hide WithState, WithSuccess, WithFailure, WithSubscribed, Topic;
  }

  lemma LinkSteps(s: State, step: Step, s': State)
    requires Next(s, step, s')
    ensures step in {Disconnect, LinkLost} ==> !s'.live
    ensures !step.TickStep? ==> s'.connections == s.connections && (s'.live ==> s.live)
    ensures step.TickStart? ==> s' == Started(s)
    ensures step.TickStep? ==> s' == Ticked(s, step.ok, step.now)
  {
    hide Ticked, Applied, Reconnected;
  }

  // The first settings count as a change: generation one, nothing connected or subscribed yet.
  lemma FirstState(s: State)
    requires Init(s)
    ensures s.status.generation == 1 && !s.status.connected && !s.status.subscribed && s.status.nextAttempt == 0
    ensures s.status.connecting == (s.status.settings.enabled && s.status.settings.complete) && s.tick.Idle? && s.acks == {}
    ensures !s.live && s.connections == 0 && s.closing == 1
  {}
}
