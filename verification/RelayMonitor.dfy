// Commands and the status monitor share one 64-bit controlVersion. Commands hold the controller's
// lock and add one to the version before and after a "set"; the monitor runs without the lock.
// Models sendASCII in internal/interference/relay.go and the query/accept loop of
// monitorConnection in internal/interference/relay_monitor.go, step by interleaved step.
module RelayMonitor {
  import opened Bytes

  const VERSIONS := 0x1_0000_0000_0000_0000

  datatype Kind = Set | Get

  // Where one goroutine is inside sendASCII.
  datatype Sender = Idle | Locked(kind: Kind) | Talking(kind: Kind) | Finished

  datatype State = State(
    senders: seq<Sender>,
    holder: Option<nat>,        // who holds the controller's mutex
    increments: nat,            // every Add(1) so far; the counter itself wraps
    querying: bool,             // the version is loaded, the query not yet written
    queryVersion: nat,
    awaitingOutput: bool)

  function Version(s: State): nat { s.increments % VERSIONS }

  datatype Step =
    | Lock(id: nat, kind: Kind)
    | Begin(id: nat)
    | End(id: nat)              // on every return path: the deferred Add(1)
    | Unlock(id: nat)
    | LoadVersion               // query: queryVersion = controlVersion.Load()
    | WriteQuery
    | OutputFrame               // a valid output report is read: check and accept, or resync
    | Reconnect                 // the monitor's connection fails and is opened again

  predicate Init(s: State) {
    && (forall i | 0 <= i < |s.senders| :: s.senders[i] == Idle)
    && s.holder == None && s.increments == 0
    && !s.querying && !s.awaitingOutput
  }

  // The check of an output frame against the version loaded on its arrival.
  predicate Fresh(version: nat, awaitingOutput: bool, queryVersion: nat) {
    version % 2 == 0 && (awaitingOutput ==> queryVersion == version)
  }

  predicate Accepts(s: State) { Fresh(Version(s), s.awaitingOutput, s.queryVersion) }

  function Moved(s: State, id: nat, to: Sender, bump: bool): State
    requires id < |s.senders|
  {
    s.(senders := s.senders[id := to], increments := s.increments + if bump then 1 else 0)
  }

  predicate Next(s: State, step: Step, s': State) {
    match step
    case Lock(id, kind) =>
      && id < |s.senders| && s.senders[id] == Idle && s.holder == None
      && s' == Moved(s, id, Locked(kind), false).(holder := Some(id))
    case Begin(id) =>
      && id < |s.senders| && s.senders[id].Locked?
      && s' == Moved(s, id, Talking(s.senders[id].kind), s.senders[id].kind == Set)
    case End(id) =>
      && id < |s.senders| && s.senders[id].Talking?
      && s' == Moved(s, id, Finished, s.senders[id].kind == Set)
    case Unlock(id) =>
      && id < |s.senders| && s.senders[id] == Finished
      && s' == Moved(s, id, Idle, false).(holder := None)
    case LoadVersion =>
      && !s.awaitingOutput && !s.querying
      && s' == s.(querying := true, queryVersion := Version(s))
    case WriteQuery =>
      && s.querying
      && s' == s.(querying := false, awaitingOutput := true)
    case OutputFrame =>
      // Accepted or not, nothing is awaited afterwards: a resync opens a new connection.
      && !s.querying
      && s' == s.(awaitingOutput := false)
    case Reconnect =>
      s' == s.(querying := false, awaitingOutput := false)
  }

  // ---- the objects ----

  // The shared counter as the commands use it. The ghost state is that of the whole system; each
  // method is one of its steps.
  class Controller {
    var controlVersion: nat

    ghost predicate Stands(s: State)
      reads this
    {
      controlVersion == Version(s)
    }

    constructor ()
      ensures controlVersion == 0
    {
      controlVersion := 0;
    }

    method Add()
      modifies this
      ensures controlVersion == (old(controlVersion) + 1) % VERSIONS
    {
      controlVersion := (controlVersion + 1) % VERSIONS;
    }

    // The start of a command, with the lock held.
    method Begin(kind: Kind, ghost id: nat, ghost s: State) returns (ghost s': State)
      requires Stands(s) && id < |s.senders| && s.senders[id] == Locked(kind)
      modifies this
      ensures Next(s, Step.Begin(id), s') && Stands(s')
    {
      s' := Moved(s, id, Talking(kind), kind == Set);
      if kind == Set {
        Add();
        NextVersion(s.increments);
      }
    }

    // Its end, on every return path.
    method End(kind: Kind, ghost id: nat, ghost s: State) returns (ghost s': State)
      requires Stands(s) && id < |s.senders| && s.senders[id] == Talking(kind)
      modifies this
      ensures Next(s, Step.End(id), s') && Stands(s')
    {
      s' := Moved(s, id, Finished, kind == Set);
      if kind == Set {
        Add();
        NextVersion(s.increments);
      }
    }
  }

  lemma NextVersion(n: nat)
    ensures (n % VERSIONS + 1) % VERSIONS == (n + 1) % VERSIONS
  {
    var q, r := n / VERSIONS, n % VERSIONS;
    assert n + 1 == q * VERSIONS + (r + 1);
    if r + 1 == VERSIONS {
      assert n + 1 == (q + 1) * VERSIONS;
    }
  }

  // The monitor's own variables.
  class Monitor {
    const controller: Controller
    var querying: bool
    var queryVersion: nat
    var awaitingOutput: bool

    ghost predicate Stands(s: State)
      reads this, controller
    {
      controller.Stands(s) && querying == s.querying && queryVersion == s.queryVersion && awaitingOutput == s.awaitingOutput
    }

    constructor (controller: Controller)
      ensures this.controller == controller && !querying && !awaitingOutput
    {
      this.controller, querying, queryVersion, awaitingOutput := controller, false, 0, false;
    }

    method LoadVersion(ghost s: State) returns (ghost s': State)
      requires Stands(s) && !querying && !awaitingOutput
      modifies this
      ensures Next(s, Step.LoadVersion, s') && Stands(s')
    {
      queryVersion := controller.controlVersion;
      querying := true;
      s' := s.(querying := true, queryVersion := Version(s));
    }

    method WriteQuery(ghost s: State) returns (ghost s': State)
      requires Stands(s) && querying
      modifies this
      ensures Next(s, Step.WriteQuery, s') && Stands(s')
    {
      querying, awaitingOutput := false, true;
      s' := s.(querying := false, awaitingOutput := true);
    }

    // A valid output report: take it, or give up the connection and with it every old reply.
    method TakeOutput(ghost s: State) returns (accepted: bool, ghost s': State)
      requires Stands(s) && !querying
      modifies this
      ensures accepted <==> Accepts(s)
      ensures Next(s, OutputFrame, s') && Stands(s')
    {
      var version := controller.controlVersion;
      accepted := !(version % 2 != 0 || (awaitingOutput && queryVersion != version));
      awaitingOutput := false;
      s' := s.(awaitingOutput := false);
    }
  }

  // A "set" command is between its two increments: only then can it touch the relay.
  predicate InFlight(s: State) {
    exists i | 0 <= i < |s.senders| :: s.senders[i] == Talking(Set)
  }

  // At most the lock holder is active, and the counter's parity follows it.
  predicate Invariant(s: State) {
    && (forall i | 0 <= i < |s.senders| && s.senders[i] != Idle :: s.holder == Some(i))
    && (s.increments % 2 == 1 <==> InFlight(s))
  }

  datatype Run = Run(states: seq<State>, steps: seq<Step>)

  predicate Valid(r: Run) {
    && |r.states| == |r.steps| + 1
    && Init(r.states[0])
    && forall i | 0 <= i < |r.steps| :: Next(r.states[i], r.steps[i], r.states[i + 1])
  }

  lemma StepKeepsInvariant(s: State, step: Step, s': State)
    requires Invariant(s) && Next(s, step, s')
    ensures Invariant(s')
    ensures s'.increments == s.increments || s'.increments == s.increments + 1
    ensures s'.increments != s.increments ==> InFlight(s) != InFlight(s')
    ensures s'.increments == s.increments ==> InFlight(s) == InFlight(s')
  {
    if step.Lock? || step.Begin? || step.End? || step.Unlock? {
      var id := step.id;
      assert forall i | 0 <= i < |s.senders| && i != id :: s'.senders[i] == s.senders[i];
      assert forall i | 0 <= i < |s.senders| && i != id :: s.senders[i] == Idle;
      assert InFlight(s) <==> s.senders[id] == Talking(Set);
      assert InFlight(s') <==> s'.senders[id] == Talking(Set);
    } else {
      assert s'.senders == s.senders;
    }
  }

  lemma {:induction false} InvariantHolds(r: Run, i: nat)
    requires Valid(r) && i < |r.states|
    ensures Invariant(r.states[i])
  {
    if i > 0 {
      InvariantHolds(r, i - 1);
      StepKeepsInvariant(r.states[i - 1], r.steps[i - 1], r.states[i]);
    }
  }

  // In every interleaving the version is odd exactly while a set command is in flight, and at
  // most one command of any kind is under way.
  lemma OddWhileInFlight(r: Run, i: nat)
    requires Valid(r) && i < |r.states|
    ensures Version(r.states[i]) % 2 == 1 <==> InFlight(r.states[i])
    ensures forall a, b | 0 <= a < b < |r.states[i].senders| ::
      r.states[i].senders[a] == Idle || r.states[i].senders[b] == Idle
  {
    InvariantHolds(r, i);
    ParityOfVersion(r.states[i].increments);
  }

  lemma ParityOfVersion(n: nat)
    ensures (n % VERSIONS) % 2 == n % 2
  {
    assert n == n / VERSIONS * VERSIONS + n % VERSIONS;
    assert n / VERSIONS * VERSIONS == 2 * (n / VERSIONS * 0x8000_0000_0000_0000);
  }

  predicate QuietBetween(r: Run, j: nat, k: nat)
    requires j <= k < |r.states|
  {
    forall m | j <= m <= k :: !InFlight(r.states[m])
  }

  // The counter only grows; it stands still and is even exactly over quiet stretches.
  lemma {:induction false} QuietMeansUnchanged(r: Run, j: nat, k: nat)
    requires Valid(r) && j <= k < |r.states|
    ensures r.states[j].increments <= r.states[k].increments
    ensures QuietBetween(r, j, k) <==>
      r.states[k].increments == r.states[j].increments && !InFlight(r.states[k])
    decreases k - j
  {
    InvariantHolds(r, k);
    if j < k {
      QuietMeansUnchanged(r, j, k - 1);
      InvariantHolds(r, k - 1);
      StepKeepsInvariant(r.states[k - 1], r.steps[k - 1], r.states[k]);
      assert QuietBetween(r, j, k) <==> QuietBetween(r, j, k - 1) && !InFlight(r.states[k]);
    }
  }

  lemma {:induction false} QueryVersionKept(r: Run, j: nat, k: nat)
    requires Valid(r) && j < k < |r.states|
    requires r.steps[j] == LoadVersion
    requires forall m | j < m < k :: r.steps[m] != LoadVersion
    ensures r.states[k].queryVersion == Version(r.states[j])
    decreases k
  {
    if j + 1 < k {
      QueryVersionKept(r, j, k - 1);
      assert Next(r.states[k - 1], r.steps[k - 1], r.states[k]);
    } else {
      assert Next(r.states[j], r.steps[j], r.states[k]);
    }
  }

  // Step j loads the version for the query that is still pending when step k reads an output
  // frame. The frame is taken as the answer exactly when no set command was in flight at any
  // moment from just before that query to the check. The bound is the width of the counter.
  lemma AnswerAcceptedIffQuiet(r: Run, j: nat, k: nat)
    requires Valid(r) && j < k < |r.steps|
    requires r.steps[j] == LoadVersion && r.steps[k] == OutputFrame && r.states[k].awaitingOutput
    requires forall m | j < m < k :: r.steps[m] != LoadVersion
    requires r.states[k].increments - r.states[j].increments < VERSIONS
    ensures Accepts(r.states[k]) <==> QuietBetween(r, j, k)
  {
    QueryVersionKept(r, j, k);
    QuietMeansUnchanged(r, j, k);
    OddWhileInFlight(r, k);
    var a, b := r.states[j].increments, r.states[k].increments;
    if a % VERSIONS == b % VERSIONS {
      assert b - a == (b / VERSIONS - a / VERSIONS) * VERSIONS;
    }
  }

  lemma {:induction false} QueryAwaited(r: Run, w: nat, k: nat)
    requires Valid(r) && w < k < |r.states| && r.steps[w] == WriteQuery
    requires forall m | w < m < k :: r.steps[m] != OutputFrame && r.steps[m] != Reconnect
    ensures r.states[k].awaitingOutput
    ensures forall m | w < m < k :: r.steps[m] != LoadVersion
    decreases k
  {
    assert Next(r.states[k - 1], r.steps[k - 1], r.states[k]);
    if w + 1 < k {
      QueryAwaited(r, w, k - 1);
    }
  }

  // The same from what happened alone: step j loads the version, step w writes the query it was
  // loaded for, and the first output frame after that on this connection is read at step k.
  lemma FirstFrameAcceptedIffQuiet(r: Run, j: nat, w: nat, k: nat)
    requires Valid(r) && j < w < k < |r.steps|
    requires r.steps[j] == LoadVersion && r.steps[w] == WriteQuery && r.steps[k] == OutputFrame
    requires forall m | j < m < w :: r.steps[m] != LoadVersion
    requires forall m | w < m < k :: r.steps[m] != OutputFrame && r.steps[m] != Reconnect
    requires r.states[k].increments - r.states[j].increments < VERSIONS
    ensures Accepts(r.states[k]) <==> QuietBetween(r, j, k)
  {
    assert Next(r.states[w], r.steps[w], r.states[w + 1]);
    QueryAwaited(r, w, k);
    AnswerAcceptedIffQuiet(r, j, k);
  }

  // Since the start, the last output frame or the last new connection, no query has been written.
  predicate Unasked(r: Run, i: nat, k: nat) {
    && i <= k < |r.states| && |r.steps| + 1 == |r.states|
    && (i == 0 || r.steps[i - 1] == OutputFrame || r.steps[i - 1] == Reconnect)
    && forall m | i <= m < k :: r.steps[m] != WriteQuery
  }

  lemma {:induction false} UnaskedNotAwaited(r: Run, i: nat, k: nat)
    requires Valid(r) && Unasked(r, i, k)
    ensures !r.states[k].awaitingOutput
    decreases k
  {
    if k > 0 {
      assert Next(r.states[k - 1], r.steps[k - 1], r.states[k]);
      if i < k {
        UnaskedNotAwaited(r, i, k - 1);
      }
    }
  }

  // Then an output frame counts exactly when no set command is in flight at that moment.
  lemma UnaskedAcceptedIffQuietNow(r: Run, i: nat, k: nat)
    requires Valid(r) && Unasked(r, i, k) && k < |r.steps| && r.steps[k] == OutputFrame
    ensures Accepts(r.states[k]) <==> !InFlight(r.states[k])
  {
    UnaskedNotAwaited(r, i, k);
    ReportAcceptedIffQuietNow(r, k);
  }

  // A report nobody asked for is accepted exactly when no set command is in flight at that moment.
  lemma ReportAcceptedIffQuietNow(r: Run, k: nat)
    requires Valid(r) && k < |r.steps|
    requires r.steps[k] == OutputFrame && !r.states[k].awaitingOutput
    ensures Accepts(r.states[k]) <==> !InFlight(r.states[k])
  {
    OddWhileInFlight(r, k);
  }

  // While an answer is awaited there is such a query: the last version load of this connection.
  lemma {:induction false} AwaitingHasQuery(r: Run, k: nat) returns (j: nat)
    requires Valid(r) && k < |r.states|
    requires r.states[k].awaitingOutput || r.states[k].querying
    ensures j < k && r.steps[j] == LoadVersion
    ensures forall m | j < m < k :: r.steps[m] != LoadVersion && r.steps[m] != Reconnect
    decreases k
  {
    assert Next(r.states[k - 1], r.steps[k - 1], r.states[k]);
    if r.steps[k - 1] == LoadVersion {
      j := k - 1;
    } else {
      j := AwaitingHasQuery(r, k - 1);
    }
  }

  // ---- what can happen ----

  // Whenever the lock is free, an idle sender can go through a whole command; a set command adds two
  // to the version, a get command nothing, and only the first is ever in flight.
  lemma CommandRuns(s: State, id: nat, kind: Kind) returns (a: State, b: State, c: State, d: State)
    requires Invariant(s) && s.holder == None && id < |s.senders| && s.senders[id] == Idle
    ensures Next(s, Lock(id, kind), a) && Next(a, Begin(id), b) && Next(b, End(id), c) && Next(c, Unlock(id), d)
    ensures InFlight(b) <==> kind == Set
    ensures d == s.(increments := s.increments + if kind == Set then 2 else 0)
  {
    a := Moved(s, id, Locked(kind), false).(holder := Some(id));
    b := Moved(a, id, Talking(kind), kind == Set);
    c := Moved(b, id, Finished, kind == Set);
    d := Moved(c, id, Idle, false).(holder := None);
    assert d.senders == s.senders;
    assert b.senders[id] == Talking(kind);
  }

  // Whenever nothing is under way, the monitor can load the version, write its query, and read an
  // answer to it; then nothing is under way again.
  lemma QueryRuns(s: State) returns (a: State, b: State, c: State)
    requires !s.querying && !s.awaitingOutput
    ensures Next(s, LoadVersion, a) && Next(a, WriteQuery, b) && Next(b, OutputFrame, c)
    ensures a.querying && b.awaitingOutput && !b.querying && b.queryVersion == Version(s)
    ensures c == s.(queryVersion := Version(s))
  {
    a := s.(querying := true, queryVersion := Version(s));
    b := a.(querying := false, awaitingOutput := true);
    c := b.(awaitingOutput := false);
  }

  // At the start everything of that is possible.
  lemma StartsIdle(s: State, id: nat)
    requires Init(s) && id < |s.senders|
    ensures Invariant(s) && s.holder == None && s.senders[id] == Idle && !s.querying && !s.awaitingOutput && Version(s) == 0
  {}

  // A new connection forgets the query of the old one and leaves the commands alone.
  lemma ReconnectForgets(s: State, s': State)
    requires Next(s, Reconnect, s')
    ensures !s'.querying && !s'.awaitingOutput && s'.senders == s.senders && Version(s') == Version(s)
  {}
}
