// Messages of the relay monitor: what one message does to each strike channel and to its external
// report. Models ObserveRelayState of internal/interference/external.go, seen per channel.
module Frames {
  import opened Bytes
  import opened Channels
  import opened Boards
  import opened Reports
  import opened Surveys

  // A failure, or the values of all outputs (or of the inputs), with the time they were seen.
  datatype Update = Update(inputs: bool, error: Option<string>, values: seq<int>, time: nat)

  // What a message says about a channel, if anything.
  function Reading(u: Update, def: Definition): Option<Outcome> {
    if u.error.Some? then Some(Failure(u.error.value))
    else if def.output < 1 || def.output > |u.values| then None
    else if u.values[def.output - 1] == 0 || u.values[def.output - 1] == 1 then Some(Value(u.values[def.output - 1]))
    else None
  }

  predicate Accepted(c: Channel, u: Update, at: nat) { FrameCounts(c, at) && Reading(u, c.def).Some? }

  function Taken(c: Channel, u: Update, at: nat): Channel {
    if Accepted(c, u, at) then AfterFrame(c, at, Reading(u, c.def).value) else c
  }

  function Delivered(c: Channel, h: History, u: Update, at: nat): History {
    match Reading(u, c.def)
    case None => h
    case Some(outcome) => HistoryFrame(c, h, at, outcome)
  }

  // ---- first pass: levels ----

  predicate TakenAt(b: Board, after: Board, id: string, u: Update, at: nat) {
    && id in b.channels && id in b.histories && id in after.channels && id in after.histories
    && after.channels[id] == Taken(b.channels[id], u, at)
    && after.histories[id] == Delivered(b.channels[id], b.histories[id], u, at)
  }

  // The first n channels have been dealt with, and those of `observed` accepted.
  predicate Swept(b: Board, after: Board, u: Update, at: nat, n: nat, observed: set<string>) {
    && after.order == b.order && after.defs == b.defs && n <= |b.order|
    && (forall i | 0 <= i < |b.order| ::
          if i < n && IsStrike(b.defs, b.order[i]) then TakenAt(b, after, b.order[i], u, at) else Kept(b, after, b.order[i]))
    && (forall i | 0 <= i < |b.order| ::
          b.order[i] in observed <==> i < n && AcceptedAt(b, b.order[i], u, at))
    && observed <= set id | id in b.order
  }

  predicate AcceptedAt(b: Board, id: string, u: Update, at: nat) {
    IsStrike(b.defs, id) && id in b.channels && Accepted(b.channels[id], u, at)
  }

  // The first n strike channels accept the message.
  predicate AllAccepted(b: Board, u: Update, at: nat, n: nat) {
    n <= |b.order| && forall i | 0 <= i < n && IsStrike(b.defs, b.order[i]) :: AcceptedAt(b, b.order[i], u, at)
  }

  // The message tells the level of every strike channel, and there is one.
  predicate Complete(b: Board, u: Update, at: nat) {
    && u.error.None? && AllAccepted(b, u, at, |b.order|)
    && exists i | 0 <= i < |b.order| :: AcceptedAt(b, b.order[i], u, at)
  }

  // ---- the same in the message's own terms ----

  // Later than the last read and the last command, and not earlier than the last message taken.
  predicate NewEnough(c: Channel, at: nat) {
    at > c.readAt && at >= c.relayObservedAt && (c.commandedAt == 0 || at > c.commandedAt)
  }

  // The value for the channel's output, counted from one.
  predicate Gives(u: Update, c: Channel, value: int) {
    u.error.None? && 1 <= c.def.output <= |u.values| && u.values[c.def.output - 1] == value
  }

  predicate Counts(c: Channel, u: Update, at: nat) {
    NewEnough(c, at) && (u.error.Some? || Gives(u, c, 0) || Gives(u, c, 1))
  }

  // The channel's level, status and error text after a message; software control apart.
  predicate LevelFollows(c: Channel, d: Channel, u: Update, at: nat) {
    && d.def == c.def && d.desired == c.desired && d.commandedAt == c.commandedAt && d.readAt == c.readAt
    && if !Counts(c, u, at) then
         d.enabled == c.enabled && d.actual == c.actual && d.status == c.status && d.lastError == c.lastError
         && d.relayObservedAt == c.relayObservedAt
       else
         && d.relayObservedAt == at
         && (u.error.Some? ==> d.actual == Unknown && !d.enabled && d.status == Error && d.lastError == u.error.value)
         && (Gives(u, c, 0) ==> d.actual == Low && !d.enabled && d.status == Idle && d.lastError == "")
         && (Gives(u, c, 1) ==> d.actual == High && d.enabled && d.status == Active && d.lastError == "")
  }

  lemma TakenFollows(c: Channel, u: Update, at: nat)
    ensures Accepted(c, u, at) <==> Counts(c, u, at)
    ensures LevelFollows(c, Taken(c, u, at), u, at) && Taken(c, u, at).softwareControlled == c.softwareControlled
  {}

  // A message is complete if it counts for every strike channel, and there is one.
  lemma CompleteMeans(b: Board, u: Update, at: nat)
    requires Shaped(b)
    ensures Complete(b, u, at) <==>
      (u.error.None? && (exists id :: IsStrike(b.defs, id))
       && forall id | IsStrike(b.defs, id) :: id in b.channels && Counts(b.channels[id], u, at))
  {
    hide Counts, Accepted, Shaped, IsStrike;
    forall id | IsStrike(b.defs, id)
      ensures id in b.order && id in b.channels && (AcceptedAt(b, id, u, at) <==> Counts(b.channels[id], u, at))
    {
      StrikeListed(b, id);
      TakenFollows(b.channels[id], u, at);
    }
    if Complete(b, u, at) {
      forall id | IsStrike(b.defs, id)
        ensures AcceptedAt(b, id, u, at)
      {
        assert b.order[Position(b.order, id)] == id;
      }
    }
    if (exists id :: IsStrike(b.defs, id)) && (forall id | IsStrike(b.defs, id) :: AcceptedAt(b, id, u, at)) {
      var id :| IsStrike(b.defs, id);
      assert AcceptedAt(b, b.order[Position(b.order, id)], u, at);
    }
  }

  lemma StrikeListed(b: Board, id: string)
    requires Shaped(b) && IsStrike(b.defs, id)
    ensures id in b.order && id in b.channels
  {}

  // The external report of a channel after a message: ended on a low level unless the store fails,
  // opened on a high one that is not the software's doing unless the store refuses or the running
  // report covers it, and otherwise as before.
  predicate ReportFollows(c: Channel, l: Ledger, after: Ledger, id: string, hasStore: bool, u: Update, at: nat) {
    && l.calls <= after.calls
    && if hasStore && NewEnough(c, at) && Gives(u, c, 0) && id in l.externals then
         id !in after.externals
         || (after.externals[id] == l.externals[id]
             && EndExternal(l.externals[id].id, id, Completed, false) in after.calls[|l.calls|..])
       else if hasStore && NewEnough(c, at) && Gives(u, c, 1) && !c.softwareControlled && id !in l.externals
               && !(l.active.Some? && id in l.active.value.channelIds) then
         if id in after.externals then after.externals[id].startedAt == at else ExternalRefused(id) in after.calls[|l.calls|..]
       else
         (id in after.externals <==> id in l.externals) && (id in l.externals ==> after.externals[id] == l.externals[id])
  }

  // A strike channel before and after a message.
  predicate Followed(b: Board, after: Board, l: Ledger, later: Ledger, hasStore: bool, id: string, u: Update, at: nat) {
    && id in b.channels && id in after.channels
    && LevelFollows(b.channels[id], after.channels[id], u, at)
    && (after.channels[id].softwareControlled <==>
          b.channels[id].softwareControlled && !(NewEnough(b.channels[id], at) && Gives(u, b.channels[id], 0)))
    && ReportFollows(b.channels[id], l, later, id, hasStore, u, at)
  }

  lemma ObservedFollows(b: Board, after: Board, l: Ledger, later: Ledger, hasStore: bool, id: string, u: Update, at: nat)
    requires IsStrike(b.defs, id) && ObservedAt(b, after, id, u, at)
    requires Dealt(l, later, id, hasStore, RoleOf(b, id, u, at), at) && l.calls <= later.calls
    ensures Followed(b, after, l, later, hasStore, id, u, at)
  {
    hide FrameCounts;
    TakenFollows(b.channels[id], u, at);
    RoleMeans(b, id, u, at);
  }

  lemma RoleMeans(b: Board, id: string, u: Update, at: nat)
    requires IsStrike(b.defs, id) && id in b.channels
    ensures
      var c := b.channels[id];
      && (RoleOf(b, id, u, at) == SawLow <==> NewEnough(c, at) && Gives(u, c, 0))
      && (RoleOf(b, id, u, at) == SawHigh <==> NewEnough(c, at) && Gives(u, c, 1) && !c.softwareControlled)
  {}

  lemma AllFollow(b: Board, after: Board, l: Ledger, later: Ledger, hasStore: bool, u: Update, at: nat)
    requires Observed(b, after, l, later, hasStore, u, at) && l.calls <= later.calls
    ensures forall i | 0 <= i < |b.order| && IsStrike(b.defs, b.order[i]) ::
      Followed(b, after, l, later, hasStore, b.order[i], u, at)
    ensures forall i | 0 <= i < |b.order| && !IsStrike(b.defs, b.order[i]) :: Kept(b, after, b.order[i])
  {
    hide ObservedAt, Dealt, RoleOf, Followed, IsStrike, Kept, TakenAt;
    forall i | 0 <= i < |b.order| && IsStrike(b.defs, b.order[i])
      ensures Followed(b, after, l, later, hasStore, b.order[i], u, at)
    {
      ObservedFollows(b, after, l, later, hasStore, b.order[i], u, at);
    }
  }

  // A message leaves the channel settled, whether it was accepted or not.
  lemma TakenSettles(b: Board, id: string, clock: nat, u: Update, at: nat)
    requires AllSettled(b, clock) && id in b.order && 0 < at <= clock
    ensures Shaped(b) && id in b.channels && id in b.histories && |b.cached| == |b.order|
    ensures Taken(b.channels[id], u, at).def.id == id
    ensures
      var c, h := Taken(b.channels[id], u, at), Delivered(b.channels[id], b.histories[id], u, at);
      && Shaped(PutChannel(b, id, c, h))
      && (Accepted(b.channels[id], u, at) ==> AllSettled(Put(b, id, c, h, ToDto(c)), clock))
      && (!Accepted(b.channels[id], u, at) ==> AllSettled(PutChannel(b, id, c, h), clock))
  {
    hide Shaped, Sound, Settled, Position, FrameCounts, SameButError;
    SettledGives(b, id, clock);
    ShapedGives(b, id);
    var c, h := Taken(b.channels[id], u, at), Delivered(b.channels[id], b.histories[id], u, at);
    if Reading(u, b.channels[id].def).Some? {
      FrameSound(b.channels[id], b.histories[id], clock, at, Reading(u, b.channels[id].def).value);
    }
    PutChannelShaped(b, id, c, h);
    SameAsItself(ToDto(c));
    PutSettles(b, id, c, h, ToDto(c), clock, clock);
    SettleAgain(b, id, b.channels[id], h, clock);
  }

  // The time of the last message never goes back, and no evidence is lost.
  lemma TakenKeepsTimes(c: Channel, h: History, u: Update, at: nat)
    ensures c.relayObservedAt <= Taken(c, u, at).relayObservedAt
    ensures h.evidence <= Delivered(c, h, u, at).evidence && h.touches == Delivered(c, h, u, at).touches
  {}

  lemma SameAsItself(dto: Dto)
    ensures SameButError(dto, dto)
  {}

  // A change that the list does not show.
  lemma SettleAgain(b: Board, id: string, c: Channel, h: History, clock: nat)
    requires AllSettled(b, clock) && id in b.order && id in b.channels && ToDto(c) == ToDto(b.channels[id])
    ensures Sound(c, h, clock) ==> AllSettled(PutChannel(b, id, c, h), clock)
  {
    hide Shaped, Sound, SameButError, ToDto;
    if Sound(c, h, clock) {
      ShapedGives(b, id);
      SameDef(c, b.channels[id]);
      PutChannelShaped(b, id, c, h);
      forall i | 0 <= i < |b.order|
        ensures Settled(PutChannel(b, id, c, h), i, clock)
      {
        assert Settled(b, i, clock);
      }
    }
  }

  lemma SameDef(c: Channel, d: Channel)
    requires ToDto(c) == ToDto(d)
    ensures c.def == d.def && c.enabled == d.enabled
  {}

  lemma SettledShaped(b: Board, clock: nat)
    requires AllSettled(b, clock)
    ensures Shaped(b)
  {}

  lemma SweptGives(b: Board, after: Board, u: Update, at: nat, observed: set<string>)
    requires Swept(b, after, u, at, |b.order|, observed)
    ensures after.order == b.order && after.defs == b.defs
    ensures forall i | 0 <= i < |b.order| :: b.order[i] in observed <==> AcceptedAt(b, b.order[i], u, at)
    ensures forall id | id in observed :: IsStrike(b.defs, id)
  {
    hide Accepted, TakenAt, Kept;
  }

  lemma SweptComplete(b: Board, after: Board, u: Update, at: nat, observed: set<string>)
    requires Swept(b, after, u, at, |b.order|, observed)
    ensures Complete(b, u, at) <==> u.error.None? && AllAccepted(b, u, at, |b.order|) && observed != {}
  {
    hide Accepted, TakenAt, Kept, AllAccepted, AcceptedAt;
    if observed != {} {
      var id :| id in observed;
      var i :| 0 <= i < |b.order| && b.order[i] == id;
      assert AcceptedAt(b, b.order[i], u, at);
    }
  }

  lemma SweepStart(b: Board, u: Update, at: nat)
    requires Shaped(b)
    ensures Swept(b, b, u, at, 0, {}) && NoRepeats(b.order)
  {
    hide Accepted, Taken, Delivered;
    forall i | 0 <= i < |b.order|
      ensures Kept(b, b, b.order[i])
    {
      ShapedGives(b, b.order[i]);
    }
  }

  lemma SweepSkip(b: Board, after: Board, u: Update, at: nat, n: nat, observed: set<string>)
    requires Swept(b, after, u, at, n, observed) && n < |b.order| && !IsStrike(b.defs, b.order[n])
    ensures Swept(b, after, u, at, n + 1, observed)
  {
    hide TakenAt, Kept, Accepted;
  }

  lemma SweepStep(b: Board, mid: Board, after: Board, u: Update, at: nat, n: nat, observed: set<string>)
    requires Swept(b, mid, u, at, n, observed) && n < |b.order| && NoRepeats(b.order) && IsStrike(b.defs, b.order[n])
    requires KeptBut(mid, after, {b.order[n]}) && TakenAt(mid, after, b.order[n], u, at)
    ensures AcceptedAt(b, b.order[n], u, at) <==> AcceptedAt(mid, b.order[n], u, at)
    ensures Swept(b, after, u, at, n + 1, if AcceptedAt(b, b.order[n], u, at) then observed + {b.order[n]} else observed)
  {
    hide Accepted, Taken, Delivered, IsStrike;
    assert forall i | 0 <= i < |b.order| && i != n :: b.order[i] != b.order[n];
    assert Kept(b, mid, b.order[n]);
    forall i | 0 <= i < |b.order| && i != n
      ensures Kept(mid, after, b.order[i])
    {}
  }

  // ---- second pass: software control and external reports ----

  // What an accepted message means for the channel's external report.
  datatype Role = Untouched | SawLow | SawHigh

  function RoleOf(b: Board, id: string, u: Update, at: nat): Role {
    if u.error.Some? || !AcceptedAt(b, id, u, at) then Untouched
    else if Reading(u, b.channels[id].def) == Some(Value(0)) then SawLow
    else if b.channels[id].softwareControlled then Untouched
    else SawHigh
  }

  function Released(c: Channel): Channel { c.(softwareControlled := false) }

  // The channel after both passes.
  predicate ObservedAt(b: Board, after: Board, id: string, u: Update, at: nat) {
    && id in b.channels && id in b.histories && id in after.channels && id in after.histories
    && var c, h := Taken(b.channels[id], u, at), Delivered(b.channels[id], b.histories[id], u, at);
       if RoleOf(b, id, u, at) == SawLow
       then after.channels[id] == Released(c) && after.histories[id] == Touched(h, SeenLow)
       else after.channels[id] == c && after.histories[id] == h
  }

  // The first n channels have been through both passes, the others through the first only.
  predicate Closing(b: Board, after: Board, u: Update, at: nat, n: nat) {
    && after.order == b.order && after.defs == b.defs && n <= |b.order|
    && forall i | 0 <= i < |b.order| ::
         if !IsStrike(b.defs, b.order[i]) then Kept(b, after, b.order[i])
         else if i < n then ObservedAt(b, after, b.order[i], u, at)
         else TakenAt(b, after, b.order[i], u, at)
  }

  lemma CloseStart(b: Board, after: Board, u: Update, at: nat, observed: set<string>)
    requires Swept(b, after, u, at, |b.order|, observed)
    ensures Closing(b, after, u, at, 0)
  {
    hide TakenAt, Kept, IsStrike, AcceptedAt;
  }

  // A message with an error releases nothing.
  lemma CloseError(b: Board, after: Board, u: Update, at: nat)
    requires Closing(b, after, u, at, 0) && u.error.Some?
    ensures Closing(b, after, u, at, |b.order|)
  {
    hide Taken, Delivered, Kept, IsStrike, AcceptedAt;
    forall i | 0 <= i < |b.order| && IsStrike(b.defs, b.order[i])
      ensures ObservedAt(b, after, b.order[i], u, at)
    {
      assert TakenAt(b, after, b.order[i], u, at);
    }
  }

  // The flag brought up to date between the passes.
  lemma SyncAll(b: Board, after: Board, u: Update, at: nat, observed: set<string>, clock: nat)
    requires Swept(b, after, u, at, |b.order|, observed) && AllSettled(after, clock)
    ensures Swept(b, Synced(after), u, at, |b.order|, observed) && BoardOk(Synced(after), clock)
    ensures forall id | id in after.order :: id in after.channels
  {
    hide TakenAt, AcceptedAt, AnyOn, Settled, IsStrike, Kept;
    SyncedOk(after, clock);
    forall i | 0 <= i < |b.order|
      ensures TakenAt(b, after, b.order[i], u, at) ==> TakenAt(b, Synced(after), b.order[i], u, at)
      ensures Kept(b, after, b.order[i]) ==> Kept(b, Synced(after), b.order[i])
    {
      SyncedTaken(b, after, b.order[i], u, at);
    }
  }

  lemma SyncedTaken(b: Board, after: Board, id: string, u: Update, at: nat)
    ensures TakenAt(b, after, id, u, at) ==> TakenAt(b, Synced(after), id, u, at)
    ensures Kept(b, after, id) ==> Kept(b, Synced(after), id)
  {}

  lemma OkSettled(b: Board, clock: nat)
    requires BoardOk(b, clock)
    ensures AllSettled(b, clock) && Shaped(b)
  {}

  lemma StillOk(b: Board, after: Board, clock: nat)
    requires BoardOk(b, clock) && AllSettled(after, clock)
    requires after.order == b.order && after.channels == b.channels && after.active == b.active
    ensures BoardOk(after, clock)
  {
    hide AllSettled, AnyOn;
  }

  // What the second pass finds at a channel that was accepted.
  lemma RoleSeen(b: Board, after: Board, u: Update, at: nat, n: nat)
    requires Closing(b, after, u, at, n) && n < |b.order| && u.error.None? && AcceptedAt(b, b.order[n], u, at)
    ensures b.order[n] in after.channels && b.order[n] in after.histories
    ensures
      var c := after.channels[b.order[n]];
      c.relayObservedAt == at
      && RoleOf(b, b.order[n], u, at) == if !c.enabled then SawLow else if c.softwareControlled then Untouched else SawHigh
  {
    assert TakenAt(b, after, b.order[n], u, at);
  }

  lemma CloseStep(b: Board, mid: Board, after: Board, u: Update, at: nat, n: nat)
    requires Closing(b, mid, u, at, n) && n < |b.order| && NoRepeats(b.order) && IsStrike(b.defs, b.order[n])
    requires KeptBut(mid, after, {b.order[n]})
    requires b.order[n] in mid.channels && b.order[n] in mid.histories && b.order[n] in after.channels
    requires b.order[n] in after.histories
    requires
      var id := b.order[n];
      if RoleOf(b, id, u, at) == SawLow
      then after.channels[id] == Released(mid.channels[id]) && after.histories[id] == Touched(mid.histories[id], SeenLow)
      else after.channels[id] == mid.channels[id] && after.histories[id] == mid.histories[id]
    ensures Closing(b, after, u, at, n + 1)
  {
    hide Taken, Delivered, IsStrike, RoleOf, Touched, Released;
    assert forall i | 0 <= i < |b.order| && i != n :: b.order[i] != b.order[n];
    assert TakenAt(b, mid, b.order[n], u, at);
    forall i | 0 <= i < |b.order| && i != n
      ensures Kept(mid, after, b.order[i])
    {}
  }

  lemma CloseSkip(b: Board, after: Board, u: Update, at: nat, n: nat)
    requires Closing(b, after, u, at, n) && n < |b.order| && !AcceptedAt(b, b.order[n], u, at)
    ensures RoleOf(b, b.order[n], u, at) == Untouched
    ensures Closing(b, after, u, at, n + 1)
  {
    hide Taken, Delivered, IsStrike;
    if IsStrike(b.defs, b.order[n]) {
      assert TakenAt(b, after, b.order[n], u, at);
      assert ObservedAt(b, after, b.order[n], u, at);
    }
  }

  // Giving up software control disturbs nothing that is shown.
  lemma ReleaseOk(b: Board, id: string, clock: nat)
    requires BoardOk(b, clock) && id in b.order
    ensures id in b.channels && id in b.histories
    ensures BoardOk(PutChannel(b, id, Released(b.channels[id]), Touched(b.histories[id], SeenLow)), clock)
    ensures KeptBut(b, PutChannel(b, id, Released(b.channels[id]), Touched(b.histories[id], SeenLow)), {id})
  {
    hide Shaped, Sound, Settled, AllSettled, AnyOn, KeptBut;
    OkGives(b, id, clock);
    SettledGives(b, id, clock);
    ReleasedSound(b.channels[id], b.histories[id], clock);
    SettleAgain(b, id, Released(b.channels[id]), Touched(b.histories[id], SeenLow), clock);
    SameOn(b.order, b.channels, id, Released(b.channels[id]));
    KeptOthers(b, PutChannel(b, id, Released(b.channels[id]), Touched(b.histories[id], SeenLow)), id);
  }

  // ---- the reports of the second pass ----

  predicate SameExternal(l: Ledger, after: Ledger, id: string) {
    (id in l.externals <==> id in after.externals) && (id in l.externals ==> after.externals[id] == l.externals[id])
  }

  // The calls since l.
  function Since(l: Ledger, after: Ledger): seq<Call> {
    if |l.calls| <= |after.calls| then after.calls[|l.calls|..] else []
  }

  // What must have become of a channel's external report since l: closed or opened according to
  // its role, unless the store was asked and failed; and left alone otherwise.
  predicate Dealt(l: Ledger, after: Ledger, id: string, hasStore: bool, role: Role, at: nat) {
    if role == SawLow && id in l.externals && hasStore then
      id !in after.externals
      || (after.externals[id] == l.externals[id] && EndExternal(l.externals[id].id, id, Completed, false) in Since(l, after))
    else if role == SawHigh && id !in l.externals && hasStore && !Owns(l, id) then
      if id in after.externals then after.externals[id].startedAt == at else ExternalRefused(id) in Since(l, after)
    else SameExternal(l, after, id)
  }

  predicate Later(l: Ledger, after: Ledger) { l.calls <= after.calls && l.active == after.active }

  lemma DealtKept(l: Ledger, mid: Ledger, after: Ledger, id: string, hasStore: bool, role: Role, at: nat)
    requires Dealt(l, mid, id, hasStore, role, at) && SameExternal(mid, after, id)
    requires l.calls <= mid.calls <= after.calls
    ensures Dealt(l, after, id, hasStore, role, at)
  {
    assert Since(l, after) == Since(l, mid) + after.calls[|mid.calls|..];
  }

  lemma DealtByFinish(l: Ledger, mid: Ledger, after: Ledger, id: string, hasStore: bool, at: nat)
    requires Later(l, mid) && SameExternal(l, mid, id) && Finishes(mid, after, hasStore, id, Completed)
    ensures Dealt(l, after, id, hasStore, SawLow, at) && Later(l, after) && mid.calls <= after.calls
    ensures forall other | other != id :: SameExternal(mid, after, other)
  {
    if after != mid {
      assert after.calls[|mid.calls|] in Since(l, after);
    }
  }

  lemma DealtByStart(l: Ledger, mid: Ledger, after: Ledger, id: string, hasStore: bool, at: nat)
    requires Later(l, mid) && SameExternal(l, mid, id) && Starts(mid, after, hasStore, id, at)
    ensures Dealt(l, after, id, hasStore, SawHigh, at) && Later(l, after) && mid.calls <= after.calls
    ensures forall other | other != id :: SameExternal(mid, after, other)
  {
    if after != mid {
      assert after.calls[|mid.calls|] in Since(l, after);
    }
  }

  // The reports of the first n channels have been dealt with, those of the others left alone.
  predicate Settling(b: Board, u: Update, at: nat, hasStore: bool, l: Ledger, after: Ledger, n: nat) {
    && Later(l, after)
    && forall i | 0 <= i < |b.order| ::
         if i < n then Dealt(l, after, b.order[i], hasStore, RoleOf(b, b.order[i], u, at), at)
         else SameExternal(l, after, b.order[i])
  }

  lemma SettlingStep(b: Board, u: Update, at: nat, hasStore: bool, l: Ledger, mid: Ledger, after: Ledger, n: nat)
    requires Settling(b, u, at, hasStore, l, mid, n) && n < |b.order| && NoRepeats(b.order)
    requires var id := b.order[n];
      match RoleOf(b, id, u, at)
      case Untouched => after == mid
      case SawLow => Finishes(mid, after, hasStore, id, Completed)
      case SawHigh => Starts(mid, after, hasStore, id, at)
    ensures Settling(b, u, at, hasStore, l, after, n + 1)
  {
    hide RoleOf, Finishes, Starts, SameExternal, Dealt;
    var id := b.order[n];
    match RoleOf(b, id, u, at)
    case Untouched =>
      NotDealt(l, mid, id, hasStore, at);
    case SawLow =>
      DealtByFinish(l, mid, after, id, hasStore, at);
      SettlingOthers(b, u, at, hasStore, l, mid, after, n);
    case SawHigh =>
      DealtByStart(l, mid, after, id, hasStore, at);
      SettlingOthers(b, u, at, hasStore, l, mid, after, n);
  }

  lemma NotDealt(l: Ledger, after: Ledger, id: string, hasStore: bool, at: nat)
    requires SameExternal(l, after, id)
    ensures Dealt(l, after, id, hasStore, Untouched, at)
  {}

  lemma SettlingOthers(b: Board, u: Update, at: nat, hasStore: bool, l: Ledger, mid: Ledger, after: Ledger, n: nat)
    requires Settling(b, u, at, hasStore, l, mid, n) && n < |b.order| && NoRepeats(b.order)
    requires mid.calls <= after.calls && forall other | other != b.order[n] :: SameExternal(mid, after, other)
    ensures forall i | 0 <= i < |b.order| && i != n ::
      if i < n then Dealt(l, after, b.order[i], hasStore, RoleOf(b, b.order[i], u, at), at)
      else SameExternal(l, after, b.order[i])
  {
    hide RoleOf, Dealt;
    forall i | 0 <= i < |b.order| && i != n
      ensures if i < n then Dealt(l, after, b.order[i], hasStore, RoleOf(b, b.order[i], u, at), at)
              else SameExternal(l, after, b.order[i])
    {
      assert b.order[i] != b.order[n] && SameExternal(mid, after, b.order[i]);
      if i < n {
        DealtKept(l, mid, after, b.order[i], hasStore, RoleOf(b, b.order[i], u, at), at);
      } else {
        assert SameExternal(l, mid, b.order[i]);
      }
    }
  }

  lemma SettlingStart(b: Board, u: Update, at: nat, hasStore: bool, l: Ledger)
    ensures Settling(b, u, at, hasStore, l, l, 0)
  {}

  // A message with an error, or one that no channel accepts, concerns no report.
  lemma SettlingNone(b: Board, u: Update, at: nat, hasStore: bool, l: Ledger)
    requires u.error.Some? || forall i | 0 <= i < |b.order| :: !AcceptedAt(b, b.order[i], u, at)
    ensures Settling(b, u, at, hasStore, l, l, |b.order|)
  {
    hide AcceptedAt;
  }

  lemma CloseNone(b: Board, after: Board, u: Update, at: nat)
    requires Swept(b, after, u, at, |b.order|, {})
    ensures Closing(b, after, u, at, |b.order|)
    ensures forall i | 0 <= i < |b.order| :: !AcceptedAt(b, b.order[i], u, at)
  {
    hide Taken, Delivered, IsStrike, AcceptedAt;
    forall i | 0 <= i < |b.order| && IsStrike(b.defs, b.order[i])
      ensures ObservedAt(b, after, b.order[i], u, at)
    {
      assert TakenAt(b, after, b.order[i], u, at);
    }
  }

  // Everything a message does, channel by channel.
  predicate Observed(b: Board, after: Board, l: Ledger, later: Ledger, hasStore: bool, u: Update, at: nat) {
    && Closing(b, after, u, at, |b.order|)
    && forall i | 0 <= i < |b.order| :: Dealt(l, later, b.order[i], hasStore, RoleOf(b, b.order[i], u, at), at)
  }

  lemma ObservedAll(b: Board, after: Board, l: Ledger, mid: Ledger, later: Ledger, hasStore: bool, u: Update, at: nat)
    requires Closing(b, after, u, at, |b.order|) && Settling(b, u, at, hasStore, l, mid, |b.order|)
    requires mid.calls <= later.calls && later.externals == mid.externals
    ensures Observed(b, after, l, later, hasStore, u, at)
  {
    hide Closing, Dealt, RoleOf;
    forall i | 0 <= i < |b.order|
      ensures Dealt(l, later, b.order[i], hasStore, RoleOf(b, b.order[i], u, at), at)
    {
      DealtKept(l, mid, later, b.order[i], hasStore, RoleOf(b, b.order[i], u, at), at);
    }
  }
}
