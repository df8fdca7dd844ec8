// The law of strikes: what a stop and a start have to look at and may send, when the pending flag
// is cleared, when a failing stop is remembered, and what a cleared flag says about the channels.
// Models applyScreenStrikeWithType, applyScreenStrikeWithTypeLocked and retryPendingStrikeStop in
// internal/interference/service.go, seen from before and after a call.
module StrikeLaw {
  import opened Bytes
  import opened Channels
  import opened Boards
  import opened Commands
  import opened Reports
  import opened Surveys

  // The service between two calls: its channels, the running report, the pending flag, everything
  // sent so far, every answer so far to whether the relay is offline, and every call so far to the
  // report store.
  datatype Moment = Moment(
    board: Board,
    report: Option<Platform>,
    pending: bool,
    commands: seq<Command>,
    looks: seq<bool>,
    calls: seq<Call>,
    clock: nat)

  // The channels to switch off: those seen on, or those of the running report when nothing is on
  // but not everything could be read.
  function Targets(seen: Board, report: Option<Platform>): seq<string> {
    var on := OnIds(seen.order, seen.channels);
    if on == [] && !AllKnown(seen.order, seen.channels) && report.Some? then report.value.channelIds else on
  }

  // The answers before n switch-offs, asked one by one: the relay is online each time; and found
  // offline after that if they are cut short.
  function Answers(n: nat, cut: bool): seq<bool> {
    seq(n, i => false) + if cut then [true] else []
  }

  lemma AnswersSnoc(n: nat)
    ensures Answers(n, false) + [false] == Answers(n + 1, false) && Answers(n, false) + [true] == Answers(n, true)
    ensures Answers(0, false) == []
  {}

  predicate AnsweredAt(looks: seq<bool>, k: nat, answers: seq<bool>) {
    k + |answers| <= |looks| && looks[k..k + |answers|] == answers
  }

  // Between two moments the relay was asked for exactly that, at one stretch.
  ghost predicate Sent(looks: seq<bool>, later: seq<bool>, n: nat, cut: bool) {
    exists k: nat :: |looks| <= k && AnsweredAt(later, k, Answers(n, cut))
  }

  lemma SentNow(looks: seq<bool>, then_: seq<bool>, n: nat, cut: bool)
    requires looks <= then_
    ensures Sent(looks, then_ + Answers(n, cut), n, cut)
  {
    assert AnsweredAt(then_ + Answers(n, cut), |then_|, Answers(n, cut));
  }

  lemma SentLater(looks: seq<bool>, later: seq<bool>, last: seq<bool>, n: nat, cut: bool)
    requires Sent(looks, later, n, cut) && later <= last
    ensures Sent(looks, last, n, cut)
  {
    hide Answers;
    var k: nat :| |looks| <= k && AnsweredAt(later, k, Answers(n, cut));
    assert last[k..k + |Answers(n, cut)|] == later[k..k + |Answers(n, cut)|];
    assert AnsweredAt(last, k, Answers(n, cut));
  }

  lemma SentFrom(looks: seq<bool>, first: seq<bool>, later: seq<bool>, n: nat, cut: bool)
    requires Sent(looks, later, n, cut) && |first| <= |looks|
    ensures Sent(first, later, n, cut)
  {
    hide Answers, AnsweredAt;
  }

  // A stop pass from a to b: a look at every strike channel gave `seen`; then switch-offs went to
  // the targets, in order, each after the relay was found online, and cut short exactly where it
  // was found offline. The flag says whether they were all
  // acknowledged.
  ghost predicate Passed(a: Moment, b: Moment, seen: Board, lows: seq<Command>) {
    && Looked(a.board, seen, b.board, a.looks, b.looks, b.clock)
    && b.commands == a.commands + lows && Stops(Targets(seen, a.report), lows)
    && (!b.pending <==> Clean(Targets(seen, a.report), lows))
    && Sent(a.looks, b.looks, |lows|, |lows| < |Targets(seen, a.report)|)
    && a.calls <= b.calls
  }

  ghost predicate StopDone(a: Moment, b: Moment) { exists seen, lows :: Passed(a, b, seen, lows) }

  // Looks that found the relay online change nothing about that.
  lemma StopDoneFrom(a: Moment, b: Moment, looks: seq<bool>)
    requires StopDone(a.(looks := looks), b) && Found(looks) == Found(a.looks) && |a.looks| <= |looks|
    ensures StopDone(a, b)
  {
    hide Looked, Found, Targets, Stops, Clean, Sent;
    var seen, lows :| Passed(a.(looks := looks), b, seen, lows);
    LookedFrom(a.board, seen, b.board, looks, a.looks, b.looks, b.clock);
    SentFrom(looks, a.looks, b.looks, |lows|, |lows| < |Targets(seen, a.report)|);
    assert Passed(a, b, seen, lows);
  }

  // A call that asks for a stop. Offline at the first look: remembered, without a pass. Offline only
  // at the second: refused and forgotten. Otherwise a pass decides.
  ghost predicate StopCall(a: Moment, b: Moment, failed: bool) {
    var n := |a.looks|;
    && n < |b.looks|
    && if b.looks[n] then failed && b == a.(looks := a.looks + [true], pending := true)
       else
         && n + 1 < |b.looks|
         && if b.looks[n + 1] then failed && b == a.(looks := a.looks + [false, true])
            else a.looks + [false, false] <= b.looks && failed == b.pending
                 && StopDone(a.(looks := a.looks + [false, false]), b)
  }

  // A retry: nothing while the relay is found offline or no stop is pending, else a pass.
  ghost predicate RetryCall(a: Moment, b: Moment) {
    var n := |a.looks|;
    && n < |b.looks|
    && if b.looks[n] || !a.pending then b == a.(looks := a.looks + [b.looks[n]])
       else StopDone(a.(looks := a.looks + [false]), b)
  }

  // A stop that fails is remembered exactly unless the relay was found online at the first look and
  // offline at the second, or a stop was pending anyway.
  lemma FailedStopRememberedIff(a: Moment, b: Moment)
    requires StopCall(a, b, true)
    ensures b.pending <==> a.pending || b.looks != a.looks + [false, true]
  {
    hide StopDone;
    var n := |a.looks|;
    assert (a.looks + [true])[n] && !(a.looks + [false, true])[n];
    assert (a.looks + [false, true])[n + 1] && !(a.looks + [false, false])[n + 1];
  }

  // Such a stop exists from every moment: it fails, sends nothing and leaves the flag down.
  lemma StopIsLost(a: Moment)
    requires !a.pending
    ensures
      var b := a.(looks := a.looks + [false, true]);
      StopCall(a, b, true) && !b.pending && b.commands == a.commands
  {
    hide StopDone;
    var b := a.(looks := a.looks + [false, true]);
    assert !b.looks[|a.looks|] && b.looks[|a.looks| + 1];
  }

  // A successful call made a pass whose every switch-off was acknowledged.
  lemma SuccessfulStopPassed(a: Moment, b: Moment)
    requires StopCall(a, b, false)
    ensures StopDone(a, b) && !b.pending
  {
    hide StopDone;
    var looks := a.looks + [false, false];
    FoundSnoc(a.looks, false);
    FoundSnoc(a.looks + [false], false);
    assert looks == a.looks + [false] + [false];
    StopDoneFrom(a, b, looks);
  }

  // ---- what a pass sends, in terms of channels, report and commands ----

  // A strike channel seen on.
  predicate SeenOn(seen: Board, id: string) {
    id in seen.channels && !seen.channels[id].def.reserved && seen.channels[id].enabled
  }

  predicate NothingOn(seen: Board) { forall i | 0 <= i < |seen.order| :: !SeenOn(seen, seen.order[i]) }

  predicate Listed(report: Option<Platform>, id: string) { report.Some? && id in report.value.channelIds }

  // Switch-offs go only to channels seen on or, while nothing is on, to those of the running report.
  // If they are `clean`, everything seen on was switched off; and if nothing was on, every channel
  // of the report was seen low or switched off.
  ghost predicate Covers(seen: Board, report: Option<Platform>, lows: seq<Command>, clean: bool) {
    && (forall k | 0 <= k < |lows| ::
          lows[k].SetLow? && (SeenOn(seen, lows[k].id) || (NothingOn(seen) && Listed(report, lows[k].id))))
    && (clean ==> forall k | 0 <= k < |lows| :: lows[k].acknowledged)
    && (clean ==> forall i | 0 <= i < |seen.order| && SeenOn(seen, seen.order[i]) :: SetLow(seen.order[i], true) in lows)
    && (clean && NothingOn(seen) && report.Some? ==>
          forall id | id in report.value.channelIds :: LowAt(seen, id) || SetLow(id, true) in lows)
  }

  lemma SeenOnIsOn(seen: Board, id: string)
    ensures SeenOn(seen, id) <==> IsOn(seen.channels, id)
    ensures NothingOn(seen) <==> OnIds(seen.order, seen.channels) == []
  {
    AnyOnIsOnIds(seen.order, seen.channels);
  }

  lemma CleanHasAll(ids: seq<string>, lows: seq<Command>, id: string)
    requires Clean(ids, lows) && id in ids
    ensures SetLow(id, true) in lows
  {
    var i :| 0 <= i < |ids| && ids[i] == id;
    assert lows[i] == SetLow(id, true);
  }

  lemma TargetsCover(seen: Board, clock: nat, report: Option<Platform>, lows: seq<Command>)
    requires BoardOk(seen, clock) && Stops(Targets(seen, report), lows)
    requires report.Some? ==> forall id | id in report.value.channelIds :: IsStrike(seen.defs, id)
    ensures Covers(seen, report, lows, Clean(Targets(seen, report), lows))
  {
    hide BoardOk, AllKnown, SeenOn, NothingOn, IsOn, LowAt, Clean, IsStrike;
    var ids := Targets(seen, report);
    SeenOnIsOn(seen, "");
    forall k | 0 <= k < |lows|
      ensures SeenOn(seen, lows[k].id) || (NothingOn(seen) && Listed(report, lows[k].id))
    {
      SeenOnIsOn(seen, lows[k].id);
      assert ids[k] in ids;
    }
    if Clean(ids, lows) {
      CleanAcknowledged(ids, lows);
      forall i | 0 <= i < |seen.order| && SeenOn(seen, seen.order[i])
        ensures SetLow(seen.order[i], true) in lows
      {
        SeenOnIsOn(seen, seen.order[i]);
        assert seen.order[i] in OnIds(seen.order, seen.channels);
        CleanHasAll(ids, lows, seen.order[i]);
      }
      if NothingOn(seen) && report.Some? {
        ReportCovered(seen, clock, report, lows);
      }
    }
  }

  lemma CleanAcknowledged(ids: seq<string>, lows: seq<Command>)
    requires Clean(ids, lows)
    ensures forall k | 0 <= k < |lows| :: lows[k].acknowledged
  {}

  lemma ReportCovered(seen: Board, clock: nat, report: Option<Platform>, lows: seq<Command>)
    requires BoardOk(seen, clock) && Clean(Targets(seen, report), lows) && OnIds(seen.order, seen.channels) == []
    requires report.Some? && forall id | id in report.value.channelIds :: IsStrike(seen.defs, id)
    ensures forall id | id in report.value.channelIds :: LowAt(seen, id) || SetLow(id, true) in lows
  {
    hide BoardOk, OnIds, AllKnown, Clean, IsStrike;
    forall id | id in report.value.channelIds
      ensures LowAt(seen, id) || SetLow(id, true) in lows
    {
      if AllKnown(seen.order, seen.channels) {
        NoneOnAllLow(seen, clock, id);
      } else {
        CleanHasAll(Targets(seen, report), lows, id);
      }
    }
  }

  // Of a pass from a to b it says: what was sent since covers the channels seen, without failure if
  // the flag is down afterwards; and a flag that is up has a reason.
  ghost predicate StopCovers(a: Moment, b: Moment, seen: Board) {
    && a.commands <= b.commands && |a.looks| <= |b.looks|
    && Covers(seen, a.report, b.commands[|a.commands|..], !b.pending)
    && (b.pending ==>
          (exists k | |a.commands| <= k < |b.commands| :: !b.commands[k].acknowledged)
          || exists k | |a.looks| <= k < |b.looks| :: b.looks[k])
  }

  ghost predicate Covered(a: Moment, b: Moment) {
    exists seen ::
      Looked(a.board, seen, b.board, a.looks, b.looks, b.clock) && StopCovers(a, b, seen) && SeenByReading(a, b, seen)
  }

  // The look was real: if the relay was never found offline, every strike channel has been read,
  // and was seen at the level read.
  ghost predicate SeenByReading(a: Moment, b: Moment, seen: Board) {
    a.looks <= b.looks && (forall k | |a.looks| <= k < |b.looks| :: !b.looks[k]) ==>
      forall i | 0 <= i < |a.board.order| && IsStrike(a.board.defs, a.board.order[i]) ::
        ReadSince(a.board, b.board, seen, a.board.order[i])
  }

  predicate ReadSince(before: Board, after: Board, seen: Board, id: string) {
    && id in before.histories && id in after.histories && id in seen.channels
    && |before.histories[id].evidence| < |after.histories[id].evidence|
    && var e := after.histories[id].evidence[|before.histories[id].evidence|];
       e.read && seen.channels[id].enabled == e.enabled && seen.channels[id].actual == e.actual
  }

  lemma {:induction false} NeverOffline(looks: seq<bool>, later: seq<bool>)
    requires looks <= later && forall k | |looks| <= k < |later| :: !later[k]
    ensures Found(later) == Found(looks)
    decreases |later|
  {
    if |looks| < |later| {
      NeverOffline(looks, later[..|later| - 1]);
    } else {
      assert later == looks;
    }
  }

  lemma NoneMarked(b: Board, seen: Board, marked: set<string>, id: string)
    requires Surveyed(b, seen, |b.order|, marked, false) && marked == {} && id in b.order && IsStrike(b.defs, id)
    ensures PolledAt(b, seen, id, false)
  {
    hide PolledAt, Kept;
    var i :| 0 <= i < |b.order| && b.order[i] == id;
  }

  lemma LookReads(a: Moment, b: Moment, seen: Board)
    requires Looked(a.board, seen, b.board, a.looks, b.looks, b.clock)
    ensures SeenByReading(a, b, seen)
  {
    hide Surveyed, BoardOk, Found, ReadSince, IsStrike, Onward;
    if a.looks <= b.looks && forall k | |a.looks| <= k < |b.looks| :: !b.looks[k] {
      NeverOffline(a.looks, b.looks);
      var marked :| Surveyed(a.board, seen, |a.board.order|, marked, false) && Found(a.looks) + |marked| <= Found(b.looks)
        && Onward(seen, b.board) && BoardOk(seen, b.clock);
      forall i | 0 <= i < |a.board.order| && IsStrike(a.board.defs, a.board.order[i])
        ensures ReadSince(a.board, b.board, seen, a.board.order[i])
      {
        NoneMarked(a.board, seen, marked, a.board.order[i]);
        SurveyedOnward(a.board, seen, |a.board.order|, marked, false);
        StillThere(a.board, seen, b.board, i);
      }
    }
  }

  lemma StillThere(b: Board, seen: Board, after: Board, i: nat)
    requires i < |b.order| && PolledAt(b, seen, b.order[i], false) && Onward(b, seen) && Onward(seen, after)
    ensures ReadSince(b, after, seen, b.order[i])
  {
    assert Grown(seen, after, seen.order[i]);
  }

  predicate ReportsStrikes(m: Moment) {
    m.report.Some? ==> forall id | id in m.report.value.channelIds :: IsStrike(m.board.defs, id)
  }

  lemma StopDoneCovers(a: Moment, b: Moment)
    requires StopDone(a, b) && ReportsStrikes(a)
    ensures Covered(a, b)
  {
    hide Looked, Found, Targets, Stops, Clean, Sent, IsStrike, SeenByReading, Covers;
    var seen, lows :| Passed(a, b, seen, lows);
    LookReads(a, b, seen);
    LookedBoard(a.board, seen, b.board, a.looks, b.looks, b.clock);
    TargetsCover(seen, b.clock, a.report, lows);
    assert b.commands[|a.commands|..] == lows;
    if b.pending {
      WhyPending(a, b, Targets(seen, a.report), lows);
    }
    SentWithin(a.looks, b.looks, |lows|, |lows| < |Targets(seen, a.report)|);
    assert StopCovers(a, b, seen);
  }

  lemma LookedBoard(b: Board, seen: Board, after: Board, looks: seq<bool>, later: seq<bool>, clock: nat)
    requires Looked(b, seen, after, looks, later, clock)
    ensures BoardOk(seen, clock) && seen.defs == b.defs && seen.order == b.order
  {
    hide BoardOk, Onward, Found;
  }

  lemma SentWithin(looks: seq<bool>, later: seq<bool>, n: nat, cut: bool)
    requires Sent(looks, later, n, cut)
    ensures |looks| <= |later|
    ensures cut ==> exists k | |looks| <= k < |later| :: later[k]
  {
    var k: nat :| |looks| <= k && AnsweredAt(later, k, Answers(n, cut));
    if cut {
      assert Answers(n, cut)[n];
      assert later[k..k + |Answers(n, cut)|][n] == later[k + n];
    }
  }

  lemma WhyPending(a: Moment, b: Moment, ids: seq<string>, lows: seq<Command>)
    requires b.commands == a.commands + lows && Stops(ids, lows) && !Clean(ids, lows)
    requires Sent(a.looks, b.looks, |lows|, |lows| < |ids|)
    ensures (exists k | |a.commands| <= k < |b.commands| :: !b.commands[k].acknowledged)
      || exists k | |a.looks| <= k < |b.looks| :: b.looks[k]
  {
    hide Sent;
    SentWithin(a.looks, b.looks, |lows|, |lows| < |ids|);
    if |lows| == |ids| {
      var i :| 0 <= i < |lows| && !lows[i].acknowledged;
      assert b.commands[|a.commands| + i] == lows[i];
    }
  }

  // What a call adds before its pass takes nothing away from that.
  lemma CoveredFrom(a: Moment, b: Moment, looks: seq<bool>)
    requires Covered(a.(looks := looks), b) && Found(looks) == Found(a.looks) && a.looks <= looks
    requires forall k | |a.looks| <= k < |looks| :: !looks[k]
    ensures Covered(a, b)
  {
    hide Looked, Found, Covers, IsStrike, ReadSince;
    var c := a.(looks := looks);
    var seen :| Looked(c.board, seen, b.board, c.looks, b.looks, b.clock) && StopCovers(c, b, seen) && SeenByReading(c, b, seen);
    LookedFrom(a.board, seen, b.board, looks, a.looks, b.looks, b.clock);
    LookReads(a, b, seen);
    assert StopCovers(a, b, seen);
  }

  // A retry that finds the relay online makes the pass if a stop is pending.
  lemma RetryMakesPass(a: Moment, b: Moment)
    requires RetryCall(a, b) && a.pending && !b.looks[|a.looks|] && ReportsStrikes(a)
    ensures Covered(a, b)
  {
    hide StopDone, Found, Covered;
    FoundSnoc(a.looks, false);
    StopDoneFrom(a, b, a.looks + [false]);
    StopDoneCovers(a, b);
  }

  // A stop that finds the relay online at both looks makes it, and fails exactly if the flag says so.
  lemma StopMakesPass(a: Moment, b: Moment, failed: bool)
    requires StopCall(a, b, failed) && !b.looks[|a.looks|] && !b.looks[|a.looks| + 1] && ReportsStrikes(a)
    ensures Covered(a, b) && (failed <==> b.pending)
  {
    hide StopDone, Found, Covered;
    FoundSnoc(a.looks, false);
    FoundSnoc(a.looks + [false], false);
    assert a.looks + [false, false] == a.looks + [false] + [false];
    StopDoneFrom(a, b, a.looks + [false, false]);
    StopDoneCovers(a, b);
  }

  // ---- starts ----

  datatype Request = Request(selected: seq<string>, seconds: int, manual: bool, unattended: bool)

  // A start from a to b that nothing refuses beforehand. The look decides: a strike channel that is
  // on, or a running report and an unknown level, refuse it before anything is sent. Otherwise
  // switch-ons go to the selected channels, in order and to all of them on success; a failing
  // channel has all of them switched off again as a stop would, an offline relay has not.
  ghost predicate Begun(a: Moment, b: Moment, r: Request, err: Option<Failure>, seen: Board,
                        highs: seq<Command>, lows: seq<Command>)
  {
    && Looked(a.board, seen, b.board, a.looks, b.looks, b.clock)
    && b.commands == a.commands + highs + lows && b.pending == a.pending
    && Highs(r.selected, r.seconds, r.manual, r.unattended, highs) && Stops(r.selected, lows)
    && (err == Some(AlreadyActive) <==> OnIds(seen.order, seen.channels) != [])
    && (err == Some(StateUnknown) <==>
          OnIds(seen.order, seen.channels) == [] && !AllKnown(seen.order, seen.channels) && a.report.Some?)
    && (err in {Some(AlreadyActive), Some(StateUnknown)} ==> highs == [] && lows == [])
    && (err.None? ==> highs == AllHigh(r.selected, r.seconds, r.manual, r.unattended) && lows == [])
    && (err == Some(OutputError) ==> Sent(a.looks, b.looks, |lows|, |lows| < |r.selected|))
    && (err == Some(DeviceOffline) ==> lows == [] && Found(a.looks) < Found(b.looks))
    && err in {None, Some(AlreadyActive), Some(StateUnknown), Some(OutputError), Some(DeviceOffline)}
    && a.calls <= b.calls
  }

  ghost predicate StartDone(a: Moment, b: Moment, r: Request, refusal: Option<Failure>, err: Option<Failure>) {
    if refusal.Some? then
      err == refusal && b.commands == a.commands && b.pending == a.pending && a.calls <= b.calls
    else exists seen, highs, lows :: Begun(a, b, r, err, seen, highs, lows)
  }

  // What comes before that under the lock: no start while a stop is pending, none by hand in
  // unattended mode.
  ghost predicate StartLocked(a: Moment, b: Moment, r: Request, refusal: Option<Failure>, err: Option<Failure>) {
    if a.pending then err == Some(StopPending) && b == a
    else if r.manual && r.unattended then
      err == Some(UnattendedActive) && b.commands == a.commands && b.pending == a.pending && a.calls <= b.calls
    else StartDone(a, b, r, refusal, err)
  }

  ghost predicate StartCall(a: Moment, b: Moment, r: Request, refusal: Option<Failure>, err: Option<Failure>) {
    var n := |a.looks|;
    && n < |b.looks|
    && if b.looks[n] then err == Some(DeviceOffline) && b == a.(looks := a.looks + [true])
       else a.looks + [false] <= b.looks && StartLocked(a.(looks := a.looks + [false]), b, r, refusal, err)
  }

  // What was sent since a: timed switch-ons of the selected channels in order, with what the request
  // says, and after them switch-offs of selected channels.
  ghost predicate SentByStart(a: Moment, b: Moment, r: Request, highs: nat) {
    && a.commands <= b.commands && |a.commands| + highs <= |b.commands| && highs <= |r.selected|
    && (forall k | |a.commands| <= k < |a.commands| + highs ::
          var c := b.commands[k];
          c.HighFor? && c.id == r.selected[k - |a.commands|] && c.seconds == r.seconds
          && c.manual == r.manual && c.unattended == r.unattended && !c.reserved && !c.pending
          && (k < |a.commands| + highs - 1 ==> c.acknowledged))
    && forall k | |a.commands| + highs <= k < |b.commands| :: b.commands[k].SetLow? && b.commands[k].id in r.selected
  }

  // A start succeeds only after a look that showed nothing on, and every level low if a report was
  // running; then exactly the switch-ons of all selected channels were sent, all acknowledged.
  ghost predicate Succeeded(a: Moment, b: Moment, r: Request) {
    && SentByStart(a, b, r, |r.selected|) && |b.commands| == |a.commands| + |r.selected|
    && (forall k | |a.commands| <= k < |b.commands| :: b.commands[k].HighFor? && b.commands[k].acknowledged)
    && exists seen :: Looked(a.board, seen, b.board, a.looks, b.looks, b.clock) && NothingOn(seen)
         && (a.report.Some? ==> forall id | IsStrike(seen.defs, id) :: LowAt(seen, id))
  }

  // Refused after the look: something was on, or a report ran and a level was not known.
  ghost predicate NotIdle(a: Moment, b: Moment, active: bool) {
    exists seen :: Looked(a.board, seen, b.board, a.looks, b.looks, b.clock)
      && if active then !NothingOn(seen)
         else NothingOn(seen) && a.report.Some? && exists i | 0 <= i < |seen.order| :: !KnownAt(seen.channels, seen.order[i])
  }

  lemma BegunMeans(a: Moment, b: Moment, r: Request, err: Option<Failure>, seen: Board, highs: seq<Command>, lows: seq<Command>)
    requires Begun(a, b, r, err, seen, highs, lows)
    ensures exists n: nat :: SentByStart(a, b, r, n)
    ensures err.None? ==> Succeeded(a, b, r)
    ensures err == Some(AlreadyActive) ==> NotIdle(a, b, true) && b.commands == a.commands
    ensures err == Some(StateUnknown) ==> NotIdle(a, b, false) && b.commands == a.commands
    ensures err in {None, Some(AlreadyActive), Some(StateUnknown), Some(OutputError), Some(DeviceOffline)}
  {
    hide Looked, Found, Sent, OnIds, AllKnown, NothingOn, LowAt, KnownAt;
    BegunSends(a, b, r, highs, lows);
    SeenOnIsOn(seen, "");
    if err.None? {
      assert SentByStart(a, b, r, |highs|) && |highs| == |r.selected|;
      IdleSeen(a, b, seen);
    }
    if err == Some(StateUnknown) {
      SomeUnknown(seen);
    }
  }

  lemma SomeUnknown(seen: Board)
    requires !AllKnown(seen.order, seen.channels)
    ensures exists i | 0 <= i < |seen.order| :: !KnownAt(seen.channels, seen.order[i])
  {}

  lemma IdleSeen(a: Moment, b: Moment, seen: Board)
    requires Looked(a.board, seen, b.board, a.looks, b.looks, b.clock) && OnIds(seen.order, seen.channels) == []
    requires a.report.Some? ==> AllKnown(seen.order, seen.channels)
    ensures a.report.Some? ==> forall id | IsStrike(seen.defs, id) :: LowAt(seen, id)
  {
    hide BoardOk, Onward, Found, OnIds, AllKnown, IsStrike;
    if a.report.Some? {
      forall id | IsStrike(seen.defs, id)
        ensures LowAt(seen, id)
      {
        NoneOnAllLow(seen, b.clock, id);
      }
    }
  }

  lemma BegunSends(a: Moment, b: Moment, r: Request, highs: seq<Command>, lows: seq<Command>)
    requires b.commands == a.commands + highs + lows
    requires Highs(r.selected, r.seconds, r.manual, r.unattended, highs) && Stops(r.selected, lows)
    ensures SentByStart(a, b, r, |highs|)
    ensures lows == [] ==> |b.commands| == |a.commands| + |highs|
    ensures lows == [] && highs == AllHigh(r.selected, r.seconds, r.manual, r.unattended) ==>
      |highs| == |r.selected|
      && forall k | |a.commands| <= k < |b.commands| :: b.commands[k].HighFor? && b.commands[k].acknowledged
  {
    hide AllHigh, Stops, Highs;
    var n := |a.commands|;
    assert a.commands <= b.commands;
    HighsFit(r.selected, r.seconds, r.manual, r.unattended, highs);
    forall k | n <= k < n + |highs|
      ensures
        var c := b.commands[k];
        c.HighFor? && c.id == r.selected[k - n] && c.seconds == r.seconds
        && c.manual == r.manual && c.unattended == r.unattended && !c.reserved && !c.pending
        && (k < n + |highs| - 1 ==> c.acknowledged)
    {
      assert b.commands[k] == highs[k - n];
      HighAt(r.selected, r.seconds, r.manual, r.unattended, highs, k - n);
    }
    forall k | n + |highs| <= k < |b.commands|
      ensures b.commands[k].SetLow? && b.commands[k].id in r.selected
    {
      assert b.commands[k] == lows[k - n - |highs|];
      StopAt(r.selected, lows, k - n - |highs|);
    }
    if lows == [] && highs == AllHigh(r.selected, r.seconds, r.manual, r.unattended) {
      forall k | n <= k < |b.commands|
        ensures b.commands[k].HighFor? && b.commands[k].acknowledged
      {
        assert b.commands[k] == highs[k - n];
        AllHighAt(r.selected, r.seconds, r.manual, r.unattended, k - n);
      }
    }
  }

  // A start: nothing is sent while a stop is pending, by hand in unattended mode, for a request that
  // is refused, or when the relay is found offline first. Otherwise only the look refuses it, or a
  // relay found offline later, and it sends what a start may send.
  lemma StartCallMeans(a: Moment, b: Moment, r: Request, refusal: Option<Failure>, err: Option<Failure>)
    requires StartCall(a, b, r, refusal, err)
    ensures b.pending == a.pending
    ensures b.looks[|a.looks|] || a.pending || (r.manual && r.unattended) || refusal.Some? ==>
      err.Some? && b.commands == a.commands
    ensures !b.looks[|a.looks|] && !a.pending && !(r.manual && r.unattended) && refusal.None? ==>
      var c := a.(looks := a.looks + [false]);
      && (exists n: nat :: SentByStart(c, b, r, n))
      && (err.None? ==> Succeeded(c, b, r))
      && (err == Some(AlreadyActive) ==> NotIdle(c, b, true) && b.commands == a.commands)
      && (err == Some(StateUnknown) ==> NotIdle(c, b, false) && b.commands == a.commands)
      && (err == Some(DeviceOffline) ==> exists k | |a.looks| < k < |b.looks| :: b.looks[k])
      && err in {None, Some(AlreadyActive), Some(StateUnknown), Some(OutputError), Some(DeviceOffline)}
  {
    hide Begun, Succeeded, NotIdle, SentByStart, Found;
    var c := a.(looks := a.looks + [false]);
    if !b.looks[|a.looks|] && !a.pending && !(r.manual && r.unattended) && refusal.None? {
      var seen, highs, lows :| Begun(c, b, r, err, seen, highs, lows);
      BegunMeans(c, b, r, err, seen, highs, lows);
    }
    if refusal.None? && !a.pending && !b.looks[|a.looks|] && !(r.manual && r.unattended) {
      var seen, highs, lows :| Begun(c, b, r, err, seen, highs, lows);
      BegunKeepsFlag(c, b, r, err, seen, highs, lows);
      if err == Some(DeviceOffline) && forall k | |c.looks| <= k < |b.looks| :: !b.looks[k] {
        NeverOffline(c.looks, b.looks);
      }
    }
  }

  lemma BegunKeepsFlag(a: Moment, b: Moment, r: Request, err: Option<Failure>, seen: Board, highs: seq<Command>,
                       lows: seq<Command>)
    requires Begun(a, b, r, err, seen, highs, lows)
    ensures b.pending == a.pending && (err == Some(DeviceOffline) ==> Found(a.looks) < Found(b.looks))
  {
    hide Looked, Found, Sent, OnIds, AllKnown, Highs, Stops, AllHigh;
  }

  // Time may pass before the look.
  lemma StartDoneFrom(a: Moment, then_: Moment, b: Moment, r: Request, err: Option<Failure>)
    requires StartDone(then_, b, r, None, err) && then_ == a.(clock := then_.clock)
    ensures StartDone(a, b, r, None, err)
  {
    hide Looked, Found, OnIds, AllKnown, Stops, Highs, AllHigh;
    var seen, highs, lows :| Begun(then_, b, r, err, seen, highs, lows);
    assert Begun(a, b, r, err, seen, highs, lows);
  }

  // ---- what a cleared flag says ----

  predicate LowAt(seen: Board, id: string) { id in seen.channels && seen.channels[id].actual == Low }

  // After a successful pass, every strike channel was switched off or seen low, if and only if the
  // level of every strike channel that was not switched off could be read.
  lemma StopReachesAllIff(seen: Board, clock: nat, report: Option<Platform>)
    requires BoardOk(seen, clock)
    ensures
      (forall id | IsStrike(seen.defs, id) && id !in Targets(seen, report) :: LowAt(seen, id))
      <==> (forall id | IsStrike(seen.defs, id) && id !in Targets(seen, report) :: KnownAt(seen.channels, id))
  {
    hide BoardOk, IsStrike, Targets, LowAt, KnownAt;
    forall id | IsStrike(seen.defs, id) && id !in Targets(seen, report)
      ensures LowAt(seen, id) <==> KnownAt(seen.channels, id)
    {
      UntargetedLowIffKnown(seen, clock, report, id);
    }
  }

  lemma UntargetedLowIffKnown(seen: Board, clock: nat, report: Option<Platform>, id: string)
    requires BoardOk(seen, clock) && IsStrike(seen.defs, id) && id !in Targets(seen, report)
    ensures LowAt(seen, id) <==> KnownAt(seen.channels, id)
  {
    hide BoardOk, Shaped, SettledBut, LevelIsLatest, AllKnown;
    OkGives(seen, id, clock);
    assert id !in OnIds(seen.order, seen.channels);
  }

  function ReadOf(b: Board, id: string, now: nat, outcome: Outcome): Board {
    if id in b.order && |b.cached| == |b.order| && id in b.channels && id in b.histories then
      Synced(Put(b, id, AfterRead(b.channels[id], now, outcome), HistoryRead(b.histories[id], now, outcome),
                 ReadDto(b.channels[id], outcome)))
    else b
  }

  lemma ReadOfOk(b: Board, id: string, clock: nat, now: nat, outcome: Outcome)
    requires BoardOk(b, clock) && id in b.order && clock <= now
    ensures BoardOk(ReadOf(b, id, now, outcome), now)
    ensures id in b.channels && id in b.histories
    ensures ReadOf(b, id, now, outcome).channels == b.channels[id := AfterRead(b.channels[id], now, outcome)]
    ensures ReadOf(b, id, now, outcome).order == b.order && ReadOf(b, id, now, outcome).defs == b.defs
  {
    hide BoardOk, Shaped, AnyOn, Based, SettledBut, HistoryRead, AfterRead, ReadDto;
    OkGives(b, id, clock);
    ReadSettles(b, id, clock, now, outcome);
  }

  function TwoChannels(a: Definition, b: Definition): Board {
    WithChannel(WithChannel(Board([], map[], map[], [], false, map[]), a), b)
  }

  lemma TwoChannelsOk(a: Definition, b: Definition)
    requires a.id != b.id
    ensures BoardOk(TwoChannels(a, b), 0) && TwoChannels(a, b).order == [a.id, b.id]
    ensures TwoChannels(a, b).channels == map[a.id := NewChannel(a), b.id := NewChannel(b)]
    ensures TwoChannels(a, b).defs == map[a.id := a, b.id := b]
  {
    hide BoardOk, NewAt;
    var none := Board([], map[], map[], [], false, map[]);
    assert IsNew([], none);
    IsNewSnoc([], a, none);
    assert [] + [a] == [a] && [a] + [b] == [a, b];
    IsNewSnoc([a], b, WithChannel(none, a));
    NewBoardOk([a, b], TwoChannels(a, b));
  }

  // Two strike channels, the first read as high, the second not readable.
  function HalfReadable(a: Definition, b: Definition): Board {
    ReadOf(ReadOf(TwoChannels(a, b), a.id, 1, Value(1)), b.id, 2, Failure("timeout"))
  }

  lemma HalfReadableLevels(a: Definition, b: Definition)
    requires a.id != b.id
    ensures
      var seen := HalfReadable(a, b);
      && BoardOk(seen, 2) && seen.order == [a.id, b.id] && seen.defs == map[a.id := a, b.id := b]
      && seen.channels == map[a.id := AfterRead(NewChannel(a), 1, Value(1)),
                              b.id := AfterRead(NewChannel(b), 2, Failure("timeout"))]
  {
    hide BoardOk, TwoChannels, ReadOf, AfterRead;
    TwoChannelsOk(a, b);
    ReadOfOk(TwoChannels(a, b), a.id, 0, 1, Value(1));
    ReadOfOk(ReadOf(TwoChannels(a, b), a.id, 1, Value(1)), b.id, 1, 2, Failure("timeout"));
  }

  lemma OnlyFirstOn(first: string, second: string, channels: map<string, Channel>)
    requires IsOn(channels, first) && !IsOn(channels, second)
    ensures OnIds([first, second], channels) == [first]
  {
    hide IsOn;
    OnIdsSnoc([], first, channels);
    OnIdsSnoc([first], second, channels);
    assert [] + [first] == [first] && [first] + [second] == [first, second] && [first] + [] == [first];
  }

  lemma HalfReadableSeen(a: Definition, b: Definition)
    requires a.id != b.id && !a.reserved && !b.reserved
    ensures
      var seen := HalfReadable(a, b);
      && IsOn(seen.channels, a.id) && !IsOn(seen.channels, b.id)
      && IsStrike(seen.defs, b.id) && !LowAt(seen, b.id) && !KnownAt(seen.channels, b.id)
  {
    hide BoardOk, HalfReadable;
    HalfReadableLevels(a, b);
  }

  // Its stop, with everything acknowledged, leaves the second one alone: its level stays unknown.
  lemma HalfReadableEscapes(a: Definition, b: Definition)
    requires a.id != b.id && !a.reserved && !b.reserved
    ensures
      var seen := HalfReadable(a, b);
      && BoardOk(seen, 2) && Targets(seen, None) == [a.id] && Clean(Targets(seen, None), [SetLow(a.id, true)])
      && IsStrike(seen.defs, b.id) && b.id !in Targets(seen, None)
      && !LowAt(seen, b.id) && !KnownAt(seen.channels, b.id)
  {
    hide BoardOk, HalfReadable, OnIds, AllKnown, IsOn, LowAt, KnownAt, IsStrike;
    HalfReadableLevels(a, b);
    HalfReadableSeen(a, b);
    OnlyFirstOn(a.id, b.id, HalfReadable(a, b).channels);
  }
}
