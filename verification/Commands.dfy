// What the interference service sends to its outputs, and the sequences a start or a stop may send.
// Models the calls of SetHigh, SetHighFor and SetLow in internal/interference/service.go.
module Commands {
  const MIN_SECONDS := 10
  const MAX_SECONDS := 180

  datatype Failure =
    | ChannelNotFound | ChannelReserved | TimedOperationRequired | StopPending | UnattendedActive
    | ChannelsRequired | InvalidChannels | InvalidDuration | AlreadyActive | StateUnknown
    | DeviceOffline | OutputError

  // What is sent to an output, with the circumstances of a switch-on.
  datatype Command =
    | HighFor(id: string, seconds: int, acknowledged: bool, reserved: bool, pending: bool, manual: bool, unattended: bool)
    | UntimedHigh(id: string)
    | SetLow(id: string, acknowledged: bool)

  // Every switch-on is timed, in range, on a strike channel, not while a stop is pending and not
  // by hand while unattended mode is on.
  predicate Allowed(c: Command) {
    match c
    case HighFor(_, seconds, _, reserved, pending, manual, unattended) =>
      !reserved && MIN_SECONDS <= seconds <= MAX_SECONDS && !pending && !(manual && unattended)
    case UntimedHigh(_) => false
    case SetLow(_, _) => true
  }

  predicate AllAllowed(commands: seq<Command>) { forall i | 0 <= i < |commands| :: Allowed(commands[i]) }

  lemma AllowedSnoc(commands: seq<Command>, c: Command)
    ensures AllAllowed(commands + [c]) <==> AllAllowed(commands) && Allowed(c)
  {
    assert (commands + [c])[|commands|] == c;
    assert forall i | 0 <= i < |commands| :: (commands + [c])[i] == commands[i];
  }

  // Switch-offs sent to the first of `ids`; `clean` if to all of them and all acknowledged.
  predicate Stops(ids: seq<string>, lows: seq<Command>) {
    |lows| <= |ids| && forall i | 0 <= i < |lows| :: lows[i].SetLow? && lows[i].id == ids[i]
  }

  predicate Clean(ids: seq<string>, lows: seq<Command>) {
    Stops(ids, lows) && |lows| == |ids| && forall i | 0 <= i < |lows| :: lows[i].acknowledged
  }

  lemma StopsAllowed(commands: seq<Command>, ids: seq<string>, lows: seq<Command>)
    requires AllAllowed(commands) && Stops(ids, lows)
    ensures AllAllowed(commands + lows)
  {}

  lemma StopsNone(ids: seq<string>)
    ensures Stops(ids, []) && Clean(ids[..0], [])
  {}

  lemma CleanNeedsAll(ids: seq<string>, lows: seq<Command>)
    requires |lows| < |ids|
    ensures !Clean(ids, lows)
  {}

  lemma StopsSnoc(ids: seq<string>, lows: seq<Command>, acknowledged: bool)
    requires |lows| < |ids| && Stops(ids, lows)
    ensures Stops(ids, lows + [SetLow(ids[|lows|], acknowledged)])
    ensures Clean(ids[..|lows| + 1], lows + [SetLow(ids[|lows|], acknowledged)]) <==> Clean(ids[..|lows|], lows) && acknowledged
  {
    var more := lows + [SetLow(ids[|lows|], acknowledged)];
    assert more[|lows|] == SetLow(ids[|lows|], acknowledged);
    assert forall i | 0 <= i < |lows| :: more[i] == lows[i];
  }

  // Timed switch-ons of the first of `ids`: all acknowledged but possibly the last.
  predicate Highs(ids: seq<string>, seconds: int, manual: bool, unattended: bool, highs: seq<Command>) {
    |highs| <= |ids| && forall i | 0 <= i < |highs| ::
      highs[i].HighFor? && highs[i] == HighFor(ids[i], seconds, highs[i].acknowledged, false, false, manual, unattended)
      && (i < |highs| - 1 ==> highs[i].acknowledged)
  }

  // All of them, all acknowledged.
  function AllHigh(ids: seq<string>, seconds: int, manual: bool, unattended: bool): seq<Command> {
    seq(|ids|, i requires 0 <= i < |ids| => HighFor(ids[i], seconds, true, false, false, manual, unattended))
  }

  lemma HighsAllowed(commands: seq<Command>, ids: seq<string>, seconds: int, manual: bool, unattended: bool, highs: seq<Command>)
    requires AllAllowed(commands) && Highs(ids, seconds, manual, unattended, highs)
    requires MIN_SECONDS <= seconds <= MAX_SECONDS && !(manual && unattended)
    ensures AllAllowed(commands + highs)
  {}

  lemma HighsSnoc(ids: seq<string>, seconds: int, manual: bool, unattended: bool, n: nat, acknowledged: bool)
    requires n < |ids|
    ensures
      var highs := AllHigh(ids[..n], seconds, manual, unattended)
        + [HighFor(ids[n], seconds, acknowledged, false, false, manual, unattended)];
      Highs(ids, seconds, manual, unattended, highs)
      && (acknowledged ==> highs == AllHigh(ids[..n + 1], seconds, manual, unattended))
    ensures Highs(ids, seconds, manual, unattended, AllHigh(ids[..n], seconds, manual, unattended))
  {}

  lemma HighsAnd(ids: seq<string>, seconds: int, manual: bool, unattended: bool, n: nat, sent: seq<Command>)
    requires n < |ids|
    requires sent == []
      || exists acknowledged :: sent == [HighFor(ids[n], seconds, acknowledged, false, false, manual, unattended)]
    ensures Highs(ids, seconds, manual, unattended, AllHigh(ids[..n], seconds, manual, unattended) + sent)
    ensures sent == [HighFor(ids[n], seconds, true, false, false, manual, unattended)] ==>
      AllHigh(ids[..n], seconds, manual, unattended) + sent == AllHigh(ids[..n + 1], seconds, manual, unattended)
  {
    hide Highs, AllHigh;
    HighsSnoc(ids, seconds, manual, unattended, n, true);
    HighsSnoc(ids, seconds, manual, unattended, n, false);
    var highs := AllHigh(ids[..n], seconds, manual, unattended);
    assert highs + [] == highs;
  }

  lemma AllHighNone(ids: seq<string>, seconds: int, manual: bool, unattended: bool)
    ensures AllHigh(ids[..0], seconds, manual, unattended) == []
    ensures Highs(ids, seconds, manual, unattended, [])
  {}

  lemma HighsFit(ids: seq<string>, seconds: int, manual: bool, unattended: bool, highs: seq<Command>)
    requires Highs(ids, seconds, manual, unattended, highs)
    ensures |highs| <= |ids| && |AllHigh(ids, seconds, manual, unattended)| == |ids|
  {}

  lemma HighAt(ids: seq<string>, seconds: int, manual: bool, unattended: bool, highs: seq<Command>, i: nat)
    requires Highs(ids, seconds, manual, unattended, highs) && i < |highs|
    ensures i < |ids| && highs[i].HighFor?
    ensures highs[i] == HighFor(ids[i], seconds, highs[i].acknowledged, false, false, manual, unattended)
    ensures i < |highs| - 1 ==> highs[i].acknowledged
  {}

  lemma AllHighAt(ids: seq<string>, seconds: int, manual: bool, unattended: bool, i: nat)
    requires i < |AllHigh(ids, seconds, manual, unattended)|
    ensures i < |ids|
    ensures AllHigh(ids, seconds, manual, unattended)[i] == HighFor(ids[i], seconds, true, false, false, manual, unattended)
  {}

  lemma StopAt(ids: seq<string>, lows: seq<Command>, i: nat)
    requires Stops(ids, lows) && i < |lows|
    ensures lows[i].SetLow? && lows[i].id in ids
  {}
}
