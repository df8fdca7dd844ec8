// Whole runs of the interference service: what holds after any sequence of calls, with any
// arguments, any answers of the relay and of the report store, and any times.
module Runs {
  import opened Bytes
  import opened Channels
  import opened Boards
  import opened Commands
  import opened Reports
  import opened Frames
  import opened Interference
  import opened StrikeLaw
  import opened Surveys

  // Commands and calls to the report store are never taken back, and the pending flag is cleared only by a stop pass: a look at
  // every strike channel, and acknowledged switch-offs to exactly the channels it calls for: to those
  // seen on, or while nothing is on to those of the running report, unless they were seen low.
  ghost predicate StepOk(a: Moment, b: Moment) {
    && a.commands <= b.commands && a.calls <= b.calls
    && (a.pending && !b.pending ==> StopDone(a, b) && Covered(a, b))
  }

  ghost predicate RunOk(run: seq<Moment>) { forall i | 0 <= i < |run| - 1 :: StepOk(run[i], run[i + 1]) }

  lemma RunSnoc(run: seq<Moment>, m: Moment)
    requires RunOk(run) && (run != [] ==> StepOk(run[|run| - 1], m))
    ensures RunOk(run + [m])
  {
    hide StepOk;
  }

  lemma StopCallOk(a: Moment, b: Moment, failed: bool)
    requires StopCall(a, b, failed) && ReportsStrikes(a)
    ensures StepOk(a, b)
  {
    hide StopDone, Covered, ReportsStrikes;
    if !failed {
      SuccessfulStopPassed(a, b);
      StopDoneCovers(a, b);
    }
    if StopDone(a.(looks := a.looks + [false, false]), b) {
      PassSends(a.(looks := a.looks + [false, false]), b);
    }
  }

  lemma RetryCallOk(a: Moment, b: Moment)
    requires RetryCall(a, b) && ReportsStrikes(a)
    ensures StepOk(a, b)
  {
    hide StopDone, Found, Covered, ReportsStrikes;
    if StopDone(a.(looks := a.looks + [false]), b) {
      PassSends(a.(looks := a.looks + [false]), b);
      FoundSnoc(a.looks, false);
      StopDoneFrom(a, b, a.looks + [false]);
      StopDoneCovers(a, b);
    }
  }

  lemma PassSends(a: Moment, b: Moment)
    requires StopDone(a, b)
    ensures a.commands <= b.commands && a.calls <= b.calls
  {
    hide Looked, Stops, Clean, Targets, Found, Sent;
  }

  lemma StartCallOk(a: Moment, b: Moment, r: Request, refusal: Option<Failure>, err: Option<Failure>)
    requires StartCall(a, b, r, refusal, err)
    ensures StepOk(a, b)
  {
    hide Looked, Stops, Highs, AllHigh, Found, StopDone, Covered, OnIds, AllKnown;
  }

  // Calls about strikes and stops.
  method StrikeCall(s: Service)
    requires s.Inv()
    modifies s
    ensures s.Inv() && StepOk(old(s.Here()), s.Here())
  {
    hide BoardOk, LedgerOk, AllAllowed, StopCall, StartCall, RetryCall, StepOk, OnIds, Wanted;
    ghost var before := s.Here();
    var enabled: bool, ids: seq<string>, seconds: int, manual: bool, which: int := *, *, *, *, *;
    match which
    case 0 =>
      ghost var r, refusal := s.Asked(ids, seconds, manual), s.Refusal(ids, seconds);
      var err := s.ApplyScreenStrike(enabled, ids, seconds, manual);
      if enabled {
        StartCallOk(before, s.Here(), r, refusal, err);
      } else {
        StopCallOk(before, s.Here(), err.Some?);
      }
    case 1 =>
      s.RetryPendingStrikeStop();
      RetryCallOk(before, s.Here());
    case _ =>
      ghost var stopped;
      var err;
      err, stopped := s.Disable();
      if stopped {
        StopCallOk(before, s.Here(), err.Some?);
      } else {
        NothingSent(before);
      }
  }

  lemma NothingSent(a: Moment)
    ensures StepOk(a, a)
  {}

  // Every other call.
  method OtherCall(s: Service)
    requires s.Inv()
    modifies s
    ensures s.Inv() && StepOk(old(s.Here()), s.Here())
  {
    hide BoardOk, LedgerOk, AllAllowed, OnIds, AllKnown, AllLow, Surveyed, Observed, SelectIds, Wanted, AllEnded, IsStrike,
      StopDone, Covered, Fewer, Followed;
    var flag: bool, ids: seq<string>, seconds: int, name: string, which: int := *, *, *, *, *;
    match which
    case 0 => s.SetReportStore(flag);
    case 1 =>
      ghost var marked;
      var list;
      list, marked := s.ListChannels();
    case 2 => var err := s.SetState(name, flag);
    case 3 => ghost var marked := s.RefreshScreenStrikeState(flag);
    case 4 => var err := s.CheckUnattended(ids, seconds);
    case 5 => s.EnableUnattended();
    case 6 => s.DisableUnattended();
    case 7 => s.UpdateUnattendedStatus(flag);
    case 8 => s.MarkPendingStrikeStop();
    case 9 =>
      var update: Update := *;
      ghost var at := s.ObserveRelayState(update);
    case _ => s.Shutdown();
  }

  // What a state shows, in the service's own terms. Switch-ons are timed, in range, on strike
  // channels, not while a stop is pending and not by hand in unattended mode. Flag, list and levels
  // are right. At most one platform report runs, the one held, and at most one external report is
  // open per channel; no report ends twice; external ones open only without software control and
  // outside the running platform report, and are still open only if their channel has not been
  // seen low since, the store failed to end them, or it was taken away.
  ghost predicate InOrder(s: Service)
    reads s
  {
    && SwitchOnsAllowed(s.commands)
    && (s.strikeActive <==> exists i | 0 <= i < |s.order| ::
          s.order[i] in s.channels && !s.channels[s.order[i]].def.reserved && s.channels[s.order[i]].enabled)
    && |s.cachedChannels| == |s.order| && (forall i | 0 <= i < |s.order| :: ShownAt(s, i))
    && ReportsInOrder(s.calls, s.activeReport)
    && forall id | id in s.externalReports :: id in s.openedAt && id in s.histories
         && Accounted(s.externalReports[id], id, s.openedAt[id], s.histories[id], s.calls, s.storeRemoved, false)
  }

  predicate SwitchOnsAllowed(commands: seq<Command>) {
    forall i | 0 <= i < |commands| && !commands[i].SetLow? ::
      && commands[i].HighFor? && 10 <= commands[i].seconds <= 180
      && !commands[i].reserved && !commands[i].pending && !(commands[i].manual && commands[i].unattended)
  }

  // The list shows the channel but for its error text, and the channel its latest evidence.
  ghost predicate ShownAt(s: Service, i: nat)
    requires i < |s.order|
    reads s
  {
    var id := s.order[i];
    && i < |s.cachedChannels| && id in s.channels && id in s.histories
    && s.cachedChannels[i].def == s.channels[id].def && s.cachedChannels[i].enabled == s.channels[id].enabled
    && s.cachedChannels[i].actual == s.channels[id].actual && s.cachedChannels[i].desired == s.channels[id].desired
    && s.cachedChannels[i].status == s.channels[id].status
    && forall k: nat :: Latest(s.histories[id].evidence, k) ==>
         if s.histories[id].offline then !s.channels[id].enabled && s.channels[id].actual == Unknown
         else Shows(s.channels[id], s.histories[id].evidence[k])
  }

  ghost predicate ReportsInOrder(calls: seq<Call>, active: Option<Platform>) {
    && |RunningPlatforms(calls)| <= 1
    && (forall id | id in RunningPlatforms(calls) :: active.Some? && active.value.id == id)
    && (forall ch, id, other | (ch, id) in OpenExternals(calls) && (ch, other) in OpenExternals(calls) :: id == other)
    && (forall i, j | 0 <= i < j < |calls| && Ends(calls[i]) && Ends(calls[j]) :: calls[i].id != calls[j].id)
    && forall i | 0 <= i < |calls| && calls[i].CreateExternal? :: calls[i].released && !calls[i].owned
  }

  // Any number of calls, in any order: the invariant and all it means hold, and the law of the
  // pending flag between any two calls.
  method AnyRun(definitions: seq<Definition>, length: nat) returns (s: Service, ghost run: seq<Moment>)
    requires forall i, j | 0 <= i < j < |definitions| :: definitions[i].id != definitions[j].id
    ensures s.Inv() && InOrder(s)
    ensures |run| == length + 1 && run[length] == s.Here()
    ensures forall i | 0 <= i < length :: StepOk(run[i], run[i + 1])
  {
    hide BoardOk, LedgerOk, AllAllowed, StepOk, InOrder;
    s := new Service(definitions);
    run := [s.Here()];
    for n := 0 to length
      invariant fresh(s) && s.Inv() && RunOk(run) && |run| == n + 1 && run[n] == s.Here()
    {
      var strike := *;
      if strike {
        StrikeCall(s);
      } else {
        OtherCall(s);
      }
      RunSnoc(run, s.Here());
      run := run + [s.Here()];
    }
    EveryState(s);
  }

  lemma EveryState(s: Service)
    requires s.Inv()
    ensures InOrder(s)
  {
    hide LedgerOk, Shaped, Settled, Sound, AnyOn, RunningPlatforms, OpenExternals, Ends, ShownAt, Accounted,
      OpenedEarlier;
    assert forall i | 0 <= i < |s.commands| :: Allowed(s.commands[i]);
    LogShowsOrder(s.Books());
    OkGives(s.View(), "", s.clock);
    FlagShown(s);
    forall i | 0 <= i < |s.order|
      ensures ShownAt(s, i)
    {
      ShowAt(s, i);
    }
  }

  lemma FlagShown(s: Service)
    requires BoardOk(s.View(), s.clock)
    ensures s.strikeActive <==> exists i | 0 <= i < |s.order| ::
      s.order[i] in s.channels && !s.channels[s.order[i]].def.reserved && s.channels[s.order[i]].enabled
  {
    hide AllSettled;
  }

  lemma ShowAt(s: Service, i: nat)
    requires BoardOk(s.View(), s.clock) && i < |s.order|
    ensures ShownAt(s, i)
  {
    hide Sound, Shaped;
    var b := s.View();
    assert Settled(b, i, s.clock);
    forall k: nat | Latest(s.histories[s.order[i]].evidence, k)
      ensures if s.histories[s.order[i]].offline
              then !s.channels[s.order[i]].enabled && s.channels[s.order[i]].actual == Unknown
              else Shows(s.channels[s.order[i]], s.histories[s.order[i]].evidence[k])
    {
      LevelIsThatOfLatest(b, s.clock, i, k);
    }
  }
}
