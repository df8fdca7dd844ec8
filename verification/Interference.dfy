// The interference service: switch-ons, stops, direct reads, monitor frames, offline marking,
// reports and shutdown, each under one lock. Every public method keeps Inv(), so Inv() holds in
// every state that any sequence of calls can reach.
// Models internal/interference/service.go and external.go. Time, the relay's answers, its known
// connection state and the report store's answers are arbitrary at every use. The histories and
// logs grow where the environment is asked; the low level of an accepted message and the offline
// mark are noted where the service reacts to them.
module Interference {
  import opened Bytes
  import opened Channels
  import opened Boards
  import opened Reports
  import opened Commands
  import opened Frames
  import opened StrikeLaw
  import opened Surveys
  import Text

  // The identifiers asked for, without blanks.
  function Wanted(ids: seq<string>): set<string> {
    set i | 0 <= i < |ids| && Text.Trim(ids[i]) != "" :: Text.Trim(ids[i])
  }

  lemma WantedNone(ids: seq<string>)
    ensures Wanted(ids[..0]) == {}
  {}

  lemma WantedSnoc(ids: seq<string>, n: nat)
    requires n < |ids|
    ensures Wanted(ids[..n + 1]) == Wanted(ids[..n]) + if Text.Trim(ids[n]) == "" then {} else {Text.Trim(ids[n])}
  {
    hide Text.Trim;
    var more, fewer := ids[..n + 1], ids[..n];
    assert forall i | 0 <= i < n :: more[i] == fewer[i];
    assert more[n] == ids[n];
    forall id | id in Wanted(more)
      ensures id in Wanted(fewer) + if Text.Trim(ids[n]) == "" then {} else {Text.Trim(ids[n])}
    {
      var i :| 0 <= i < |more| && Text.Trim(more[i]) != "" && Text.Trim(more[i]) == id;
      if i < n {
        assert fewer[i] == more[i];
      }
    }
    forall id | id in Wanted(fewer)
      ensures id in Wanted(more)
    {
      var i :| 0 <= i < |fewer| && Text.Trim(fewer[i]) != "" && Text.Trim(fewer[i]) == id;
      assert more[i] == fewer[i];
    }
    if Text.Trim(ids[n]) != "" {
      assert Text.Trim(more[n]) in Wanted(more);
    }
  }

  // A report runs and every one of its channels is known to be low.
  predicate AllLow(channels: map<string, Channel>, report: Option<Platform>) {
    report.Some? && forall id | id in report.value.channelIds :: id in channels && channels[id].actual == Low
  }

  predicate OpenedEarlier(externals: map<string, External>, channels: map<string, Channel>) {
    forall id | id in externals :: id in channels && externals[id].startedAt <= channels[id].relayObservedAt
  }

  // The store failed to end an external report.
  predicate Refused(calls: seq<Call>, external: External, id: string) {
    EndExternal(external.id, id, Completed, false) in calls || EndExternal(external.id, id, Abnormal, false) in calls
  }

  // Open since its channel had been touched `from` times, and the channel has not been seen low since,
  // unless the store failed to end the report, or was taken away, or its end is still to come.
  predicate Accounted(external: External, id: string, from: nat, h: History, calls: seq<Call>, removed: bool, due: bool) {
    && from <= |h.touches|
    && (due || removed || Refused(calls, external, id) || forall k | from <= k < |h.touches| :: h.touches[k] != SeenLow)
  }

  predicate AllAccounted(externals: map<string, External>, openedAt: map<string, nat>, histories: map<string, History>,
                         calls: seq<Call>, removed: bool, due: set<string>)
  {
    forall id | id in externals :: id in openedAt && id in histories
      && Accounted(externals[id], id, openedAt[id], histories[id], calls, removed, id in due)
  }

  lemma AccountedCalls(externals: map<string, External>, openedAt: map<string, nat>, histories: map<string, History>,
                       calls: seq<Call>, more: seq<Call>, removed: bool, due: set<string>)
    requires AllAccounted(externals, openedAt, histories, calls, removed, due)
    ensures AllAccounted(externals, openedAt, histories, calls + more, removed, due)
  {}

  // A touch other than a low sighting, or none, changes nothing about that.
  lemma AccountedTouch(externals: map<string, External>, openedAt: map<string, nat>, histories: map<string, History>,
                       calls: seq<Call>, removed: bool, id: string, h: History)
    requires AllAccounted(externals, openedAt, histories, calls, removed, {}) && id in histories
    requires histories[id].touches <= h.touches
    ensures h.touches == histories[id].touches || h.touches == histories[id].touches + [SwitchedOn] ==>
      AllAccounted(externals, openedAt, histories[id := h], calls, removed, {})
    ensures AllAccounted(externals, openedAt, histories[id := h], calls, removed, {id})
  {}

  // No external report was opened or altered.
  predicate Fewer(externals: map<string, External>, before: map<string, External>) {
    forall id | id in externals :: id in before && externals[id] == before[id]
  }

  lemma FewerSelf(externals: map<string, External>)
    ensures Fewer(externals, externals)
  {}

  lemma OpenedFewer(externals: map<string, External>, channels: map<string, Channel>, id: string)
    requires OpenedEarlier(externals, channels)
    ensures OpenedEarlier(externals - {id}, channels)
  {}

  lemma OpenedKept(externals: map<string, External>, channels: map<string, Channel>, id: string, c: Channel)
    requires OpenedEarlier(externals, channels)
    requires id in channels && channels[id].relayObservedAt <= c.relayObservedAt
    ensures OpenedEarlier(externals, channels[id := c])
  {}

  // A report opened now is accounted for.
  lemma AccountedOpening(externals: map<string, External>, openedAt: map<string, nat>, histories: map<string, History>,
                         calls: seq<Call>, removed: bool, id: string, external: External)
    requires AllAccounted(externals, openedAt, histories, calls, removed, {}) && id in histories
    ensures AllAccounted(externals[id := external], openedAt[id := |histories[id].touches|], histories, calls, removed, {})
  {}

  lemma OpenedMore(externals: map<string, External>, channels: map<string, Channel>, id: string, external: External)
    requires OpenedEarlier(externals, channels) && id in channels && external.startedAt <= channels[id].relayObservedAt
    ensures OpenedEarlier(externals[id := external], channels)
  {}

  class Service {
    const order: seq<string>
    ghost const defs: map<string, Definition>
    var channels: map<string, Channel>
    var cachedChannels: seq<Dto>
    var strikeActive: bool
    var hasReports: bool
    var activeReport: Option<Platform>
    var externalReports: map<string, External>
    var pendingStrikeStop: bool
    var unattended: bool
    var unattendedStriking: bool

    // The environment: the clock, and the report store's last identifier.
    var clock: nat
    var storeIds: nat

    // Histories: what was seen, asked of the store, and sent, and whether the relay was found offline.
    ghost var histories: map<string, History>
    ghost var looks: seq<bool>
    ghost var openedAt: map<string, nat>   // how often a channel had been touched when its external report opened
    ghost var storeRemoved: bool
    ghost var calls: seq<Call>
    ghost var commands: seq<Command>

    ghost function View(): Board
      reads `channels, `cachedChannels, `strikeActive, `histories
    {
      Board(order, defs, channels, cachedChannels, strikeActive, histories)
    }

    ghost function Books(): Ledger
      reads `activeReport, `externalReports, `calls, `storeIds
    {
      Ledger(activeReport, externalReports, calls, storeIds)
    }

    // How often the relay was found offline.
    ghost function Outages(): nat
      reads `looks
    {
      Found(looks)
    }

    ghost function Here(): Moment
      reads this
    {
      Moment(View(), activeReport, pendingStrikeStop, commands, looks, calls, clock)
    }

    // The running platform report lists strike channels only.
    ghost predicate ReportOk()
      reads `activeReport
    {
      activeReport.Some? ==> forall id | id in activeReport.value.channelIds :: IsStrike(defs, id)
    }

    // An external report starts with an accepted message about its channel, and is ended when the
    // channel is seen low; for those in `due` that is still to happen.
    ghost predicate BooksOkBut(due: set<string>)
      reads `activeReport, `externalReports, `calls, `storeIds, `channels, `histories, `openedAt, `hasReports, `storeRemoved
    {
      && LedgerOk(Books()) && OpenedEarlier(externalReports, channels)
      && (externalReports != map[] ==> hasReports || storeRemoved)
      && AllAccounted(externalReports, openedAt, histories, calls, storeRemoved, due)
    }

    ghost predicate BooksOk()
      reads `activeReport, `externalReports, `calls, `storeIds, `channels, `histories, `openedAt, `hasReports, `storeRemoved
    {
      BooksOkBut({})
    }

    ghost predicate Inv()
      reads this
    {
      BoardOk(View(), clock) && BooksOk() && ReportOk() && AllAllowed(commands)
    }

    constructor (definitions: seq<Definition>)
      requires forall i, j | 0 <= i < j < |definitions| :: definitions[i].id != definitions[j].id
      ensures Inv() && |order| == |definitions|
      ensures forall i | 0 <= i < |definitions| ::
        order[i] == definitions[i].id && order[i] in channels && channels[order[i]] == NewChannel(definitions[i])
      ensures !pendingStrikeStop && !unattended && activeReport == None && externalReports == map[]
      ensures commands == [] && calls == []
    {
      hide IsNew, BoardOk, LedgerOk;
      var ids: seq<string> := [];
      var all: map<string, Channel> := map[];
      var list: seq<Dto> := [];
      ghost var past: map<string, History> := map[];
      ghost var known: map<string, Definition> := map[];
      NothingIsNew();
      for i := 0 to |definitions|
        invariant IsNew(definitions[..i], Board(ids, known, all, list, false, past))
      {
        var def := definitions[i];
        IsNewSnoc(definitions[..i], def, Board(ids, known, all, list, false, past));
        assert definitions[..i + 1] == definitions[..i] + [def];
        all := all[def.id := NewChannel(def)];
        known := known[def.id := def];
        past := past[def.id := History([], false, [])];
        list := list + [ToDto(NewChannel(def))];
        ids := ids + [def.id];
      }
      assert definitions[..|definitions|] == definitions;
      order, defs, channels, cachedChannels, histories := ids, known, all, list, past;
      strikeActive, hasReports, activeReport, externalReports := false, false, None, map[];
      pendingStrikeStop, unattended, unattendedStriking := false, false, false;
      clock, storeIds, calls, commands, looks := 0, 0, [], [], [];
      openedAt, storeRemoved := map[], false;
      new;
      NewBoardOk(definitions, View());
      IsNewGives(definitions, View());
      NewLedgerOk();
    }

    // ---- the environment ----

    method Now() returns (now: nat)
      modifies `clock
      ensures clock == now > 0 && now >= old(clock)
    {
      now :| now > 0 && now >= clock;
      clock := now;
    }

    // confirmedOffline: what the connection status says at this moment.
    method Offline() returns (offline: bool)
      modifies `looks
      ensures looks == old(looks) + [offline]
      ensures Outages() == old(Outages()) + if offline then 1 else 0
    {
      offline := *;
      FoundSnoc(looks, offline);
      looks := looks + [offline];
    }

    // The level an output reports, or the failure to report it, and the time just after.
    method GetState(id: string) returns (outcome: Outcome, now: nat)
      requires id in histories
      modifies `clock, `histories
      ensures clock == now > 0 && now >= old(clock)
      ensures histories == old(histories)[id := HistoryRead(old(histories)[id], now, outcome)]
      ensures old(BooksOk()) ==> if outcome == Value(0) then BooksOkBut({id}) else BooksOk()
    {
      hide LedgerOk, OpenedEarlier, AllAccounted;
      outcome := *;
      now := Now();
      if BooksOk() {
        AccountedTouch(externalReports, openedAt, histories, calls, storeRemoved, id, HistoryRead(histories[id], now, outcome));
      }
      histories := histories[id := HistoryRead(histories[id], now, outcome)];
    }

    method SendHigh(id: string) returns (acknowledged: bool)
      requires id in histories
      modifies `commands, `histories
      ensures commands == old(commands) + [UntimedHigh(id)]
      ensures histories == if acknowledged then old(histories)[id := Touched(old(histories)[id], SwitchedOn)] else old(histories)
      ensures old(BooksOk()) ==> BooksOk()
    {
      hide LedgerOk, OpenedEarlier, AllAccounted;
      if BooksOk() {
        AccountedTouch(externalReports, openedAt, histories, calls, storeRemoved, id, Touched(histories[id], SwitchedOn));
      }
      acknowledged := *;
      commands := commands + [UntimedHigh(id)];
      if acknowledged {
        histories := histories[id := Touched(histories[id], SwitchedOn)];
      }
    }

    ghost function Timed(id: string, seconds: int, acknowledged: bool, manual: bool): Command
      requires id in defs
      reads `pendingStrikeStop, `unattended
    {
      HighFor(id, seconds, acknowledged, defs[id].reserved, pendingStrikeStop, manual, unattended)
    }

    method SendHighFor(id: string, seconds: int, ghost manual: bool) returns (acknowledged: bool)
      requires id in histories && id in defs
      modifies `commands, `histories
      ensures commands == old(commands) + [Timed(id, seconds, acknowledged, manual)]
      ensures histories == if acknowledged then old(histories)[id := Touched(old(histories)[id], SwitchedOn)] else old(histories)
      ensures old(BooksOk()) ==> BooksOk()
    {
      hide LedgerOk, OpenedEarlier, AllAccounted;
      if BooksOk() {
        AccountedTouch(externalReports, openedAt, histories, calls, storeRemoved, id, Touched(histories[id], SwitchedOn));
      }
      acknowledged := *;
      commands := commands + [Timed(id, seconds, acknowledged, manual)];
      if acknowledged {
        histories := histories[id := Touched(histories[id], SwitchedOn)];
      }
    }

    method SendLow(id: string) returns (acknowledged: bool)
      requires id in histories
      modifies `commands, `histories
      ensures commands == old(commands) + [SetLow(id, acknowledged)]
      ensures histories == if acknowledged then old(histories)[id := Touched(old(histories)[id], SeenLow)] else old(histories)
      ensures old(BooksOk()) ==> if acknowledged then BooksOkBut({id}) else BooksOk()
    {
      hide LedgerOk, OpenedEarlier, AllAccounted;
      if BooksOk() {
        AccountedTouch(externalReports, openedAt, histories, calls, storeRemoved, id, Touched(histories[id], SeenLow));
      }
      acknowledged := *;
      commands := commands + [SetLow(id, acknowledged)];
      if acknowledged {
        histories := histories[id := Touched(histories[id], SeenLow)];
      }
    }

    method SetReportStore(present: bool)
      requires Inv()
      modifies `hasReports, `storeRemoved
      ensures Inv() && hasReports == present && storeRemoved == (old(storeRemoved) || !present)
    {
      hide BoardOk, LedgerOk, OpenedEarlier, AllAllowed;
      hasReports := present;
      storeRemoved := storeRemoved || !present;
    }

    // ---- caches ----

    // A channel outside the list would be appended; every caller passes one of the channels.
    method CacheChannel(id: string, dto: Dto)
      requires Shaped(View()) && id in order && dto.def.id == id
      modifies `cachedChannels
      ensures cachedChannels == PutCached(old(cachedChannels), order, id, dto)
    {
      PositionUnique(order, id);
      for index := 0 to |cachedChannels|
        invariant cachedChannels == old(cachedChannels) && index <= Position(order, id)
      {
        if cachedChannels[index].def.id == id {
          cachedChannels := cachedChannels[index := dto];
          return;
        }
      }
      assert false;
    }

    method SyncStrikeActive()
      requires forall id | id in order :: id in channels
      modifies `strikeActive
      ensures strikeActive == AnyOn(order, channels)
    {
      for i := 0 to |order|
        invariant forall k | 0 <= k < i :: channels[order[k]].def.reserved || !channels[order[k]].enabled
      {
        var state := channels[order[i]];
        if !state.def.reserved && state.enabled {
          strikeActive := true;
          return;
        }
      }
      strikeActive := false;
    }

    // ---- external reports ----

    // No report starts later than the moment it ends at, so the guard on the time never stops this.
    method FinishExternalReport(id: string, how: Ending, endedAt: nat)
      requires BooksOkBut({id}) && (id in externalReports ==> externalReports[id].startedAt <= endedAt)
      modifies `externalReports, `calls
      ensures BooksOk()
      ensures Finishes(old(Books()), Books(), hasReports, id, how)
      ensures Fewer(externalReports, old(externalReports)) && old(calls) <= calls
    {
      hide LedgerOk, OpenedEarlier;
      if id !in externalReports || !hasReports {
        return;
      }
      if endedAt < externalReports[id].startedAt {
        assert false;
      }
      var stored := *;
      ExternalEndOk(Books(), id, how, stored);
      AccountedCalls(externalReports, openedAt, histories, calls, [EndExternal(externalReports[id].id, id, how, stored)],
        storeRemoved, {id});
      OpenedFewer(externalReports, channels, id);
      calls := calls + [EndExternal(externalReports[id].id, id, how, stored)];
      assert calls[|calls| - 1] in calls;
      if stored {
        externalReports := externalReports - {id};
      }
    }

    method StartExternalReport(id: string, startedAt: nat)
      requires BooksOk() && id in histories && !OwnedBySoftware(histories[id])
      requires id in channels && startedAt <= channels[id].relayObservedAt
      modifies `externalReports, `calls, `storeIds, `openedAt
      ensures BooksOk() && old(calls) <= calls
      ensures Starts(old(Books()), Books(), hasReports, id, startedAt)
    {
      hide LedgerOk, AllAccounted, OpenedEarlier;
      if !hasReports {
        return;
      }
      if id in externalReports {
        return;
      }
      if activeReport.Some? && id in activeReport.value.channelIds {
        return;
      }
      var created: nat := *;
      if created <= storeIds {
        RefusalOk(Books(), ExternalRefused(id));
        AccountedCalls(externalReports, openedAt, histories, calls, [ExternalRefused(id)], storeRemoved, {});
        calls := calls + [ExternalRefused(id)];
        return;
      }
      ExternalOk(Books(), created, id, startedAt);
      ghost var call := CreateExternal(created, id, !OwnedBySoftware(histories[id]), Owns(Books(), id));
      AccountedCalls(externalReports, openedAt, histories, calls, [call], storeRemoved, {});
      AccountedOpening(externalReports, openedAt, histories, calls + [call], storeRemoved, id, External(created, startedAt));
      OpenedMore(externalReports, channels, id, External(created, startedAt));
      calls := calls + [call];
      externalReports := externalReports[id := External(created, startedAt)];
      openedAt := openedAt[id := |histories[id].touches|];
      storeIds := created;
    }

    // ---- one channel ----

    // The flag and the list after a change to a channel.
    method SyncAndCache(id: string, dto: Dto)
      requires Shaped(View()) && id in order && dto.def.id == id
      modifies `cachedChannels, `strikeActive
      ensures View() == Synced(old(View()).(cached := PutCached(old(cachedChannels), order, id, dto)))
    {
      hide Shaped, AnyOn;
      forall other | other in order
        ensures other in channels
      {
        ShapedGives(View(), other);
      }
      SyncedShaped(View());
      SyncStrikeActive();
      CacheChannel(id, dto);
    }

    // The channel's fields after its level has been asked for; a low level ends its external report.
    method RecordReading(id: string, outcome: Outcome, now: nat)
      requires id in channels && now == clock
      requires if outcome == Value(0) then BooksOkBut({id}) else BooksOk()
      requires outcome == Value(0) && id in externalReports ==> externalReports[id].startedAt <= now
      modifies `channels, `externalReports, `calls
      ensures channels == old(channels)[id := AfterRead(old(channels)[id], now, outcome)] && BooksOk()
      ensures if outcome == Value(0) then Finishes(old(Books()), Books(), hasReports, id, Completed)
              else Books() == old(Books())
      ensures Fewer(externalReports, old(externalReports)) && old(calls) <= calls
    {
      hide LedgerOk, OpenedEarlier, AllAccounted, Finishes, AfterRead, Fewer;
      FewerSelf(externalReports);
      ReadKeepsTimes(channels[id], now, outcome);
      OpenedKept(externalReports, channels, id, AfterRead(channels[id], now, outcome));
      channels := channels[id := AfterRead(channels[id], now, outcome)];
      if outcome == Value(0) {
        FinishExternalReport(id, Completed, now);
      }
    }

    // dtoWithActualState
    method ReadChannel(id: string) returns (dto: Dto, outcome: Outcome)
      requires SettledBut(View(), id, clock) && id in order && Based(channels[id], histories[id], clock)
      requires BooksOk()
      modifies `channels, `cachedChannels, `strikeActive, `histories, `clock, `externalReports, `calls
      ensures clock >= old(clock) && BoardOk(View(), clock) && BooksOk()
      ensures dto == ReadDto(old(channels)[id], outcome)
      ensures View() == Synced(Put(old(View()), id, AfterRead(old(channels)[id], clock, outcome),
                                   HistoryRead(old(histories)[id], clock, outcome), dto))
      ensures if outcome == Value(0) then Finishes(old(Books()), Books(), hasReports, id, Completed)
              else Books() == old(Books())
      ensures Fewer(externalReports, old(externalReports)) && old(calls) <= calls
    {
      hide BooksOk, BooksOkBut, Shaped, Settled, AllSettled, BoardOk, AnyOn, Finishes, Position, HistoryRead, AfterRead, ReadDto,
        Based, Fewer;
      ghost var b := View();
      ShapedGives(b, id);
      StartedBeforeReading(id);
      var state := channels[id];
      var now;
      outcome, now := GetState(id);
      dto := ReadDto(state, outcome);
      ReadSettles(b, id, old(clock), now, outcome);
      RecordReading(id, outcome, now);
      assert View() == PutChannel(b, id, AfterRead(state, now, outcome), HistoryRead(b.histories[id], now, outcome));
      SyncAndCache(id, dto);
    }

    lemma StartedBeforeReading(id: string)
      requires BooksOk() && id in channels && id in histories && Based(channels[id], histories[id], clock)
      ensures id in externalReports ==> externalReports[id].startedAt <= clock
    {
      hide LedgerOk, AllAccounted;
    }

    // markChannelOfflineLocked
    method MarkOffline(id: string) returns (dto: Dto)
      requires BoardOk(View(), clock) && BooksOk() && id in order
      modifies `channels, `cachedChannels, `strikeActive, `histories
      ensures BoardOk(View(), clock) && BooksOk()
      ensures exists message ::
        var c := AfterOffline(old(channels)[id], message);
        dto == ToDto(c) && View() == Synced(Put(old(View()), id, c, old(histories)[id].(offline := true), dto))
    {
      hide BoardOk, LedgerOk, Shaped, AnyOn, Position, AllAccounted;
      var message: string := *;
      ghost var b := View();
      OfflineSettles(b, id, clock, message);
      AccountedTouch(externalReports, openedAt, histories, calls, storeRemoved, id, histories[id].(offline := true));
      var state := AfterOffline(channels[id], message);
      channels := channels[id := state];
      histories := histories[id := histories[id].(offline := true)];
      assert View() == PutChannel(b, id, state, b.histories[id].(offline := true));
      dto := ToDto(state);
      SyncAndCache(id, dto);
    }

    // What a failed command leaves behind, all else unchanged.
    ghost predicate ErrorRecorded(b: Board, id: string)
      requires id in b.order && |b.cached| == |b.order| && id in b.channels && id in b.histories
      reads this
    {
      exists message ::
        var c := AfterError(b.channels[id], message);
        View() == Put(b, id, c, b.histories[id], ToDto(c))
    }

    method MarkError(id: string)
      requires BoardOk(View(), clock) && BooksOk() && id in order
      modifies `channels, `cachedChannels
      ensures BoardOk(View(), clock) && BooksOk()
      ensures id in old(channels) && id in old(histories) && |old(cachedChannels)| == |order|
      ensures ErrorRecorded(old(View()), id) && KeptBut(old(View()), View(), {id})
    {
      hide BoardOk, LedgerOk, Shaped, AnyOn, Position, KeptBut, AllAccounted;
      var message: string := *;
      ghost var b := View();
      ErrorSettles(b, id, clock, message);
      OkGives(b, id, clock);
      var state := AfterError(channels[id], message);
      channels := channels[id := state];
      assert View() == PutChannel(b, id, state, b.histories[id]);
      CacheChannel(id, ToDto(state));
      assert View() == Put(b, id, state, b.histories[id], ToDto(state));
      KeptByError(b, View(), id, state, ToDto(state));
    }

    // ---- commands to one channel, each followed by a read ----

    // What an acknowledged command, leaving c and h, and the read after it lead to.
    ghost predicate Switched(b: Board, id: string, c: Channel, h: History, outcome: Outcome)
      requires id in b.order && |b.cached| == |b.order|
      reads this
    {
      View() == Synced(Put(b, id, AfterRead(c, clock, outcome), HistoryRead(h, clock, outcome), ReadDto(c, outcome)))
    }

    // What follows an acknowledged switch-off; b was the board before it.
    method RecordSwitchOff(id: string, ghost b: Board) returns (ghost at: nat, ghost outcome: Outcome)
      requires BoardOk(b, clock) && BooksOkBut({id}) && id in b.order && id in b.histories
      requires View() == b.(histories := b.histories[id := Touched(b.histories[id], SeenLow)])
      modifies `channels, `cachedChannels, `strikeActive, `histories, `clock, `externalReports, `calls
      ensures BoardOk(View(), clock) && BooksOk()
      ensures id in b.channels && |b.cached| == |b.order| && old(clock) <= at <= clock
      ensures Switched(b, id, AfterSwitchOff(b.channels[id], at), Touched(b.histories[id], SeenLow), outcome)
      ensures FinishesTwice(old(Books()), Books(), hasReports, id, outcome == Value(0))
      ensures KeptBut(b, View(), {id}) && old(calls) <= calls
    {
      hide KeptBut, BoardOk, Shaped, SettledBut, AnyOn, Position, Based, LedgerOk, HistoryRead, AfterRead, ReadDto,
        AfterSwitchOff, AfterSwitchOn, OpenedEarlier, AllAccounted, Finishes, Fewer;
      OkGives(b, id, clock);
      var now := Now();
      at := now;
      SwitchUnsettles(b, id, old(clock), now);
      StartedBefore(b, id, old(clock));
      SwitchKeepsTimes(channels[id], now);
      OpenedKept(externalReports, channels, id, AfterSwitchOff(channels[id], now));
      channels := channels[id := AfterSwitchOff(channels[id], now)];
      assert View() == PutChannel(b, id, channels[id], histories[id]);
      ghost var c, h := channels[id], histories[id];
      FinishExternalReport(id, Completed, now);
      var dto, answer := ReadChannel(id);
      outcome := answer;
      PutTwice(b, id, c, h, channels[id], histories[id], dto);
      KeptByRead(b, View(), id, c, h, clock, outcome, dto);
    }

    method SwitchOff(id: string) returns (err: Option<Failure>, ghost at: nat, ghost outcome: Outcome)
      requires BoardOk(View(), clock) && BooksOk() && id in order
      modifies `channels, `cachedChannels, `strikeActive, `histories, `clock, `externalReports, `calls, `commands
      ensures BoardOk(View(), clock) && BooksOk() && clock >= old(clock)
      ensures commands == old(commands) + [SetLow(id, err.None?)]
      ensures err in {None, Some(OutputError)}
      ensures id in old(channels) && id in old(histories) && |old(cachedChannels)| == |order|
      ensures err.None? ==> (old(clock) <= at <= clock
        && Switched(old(View()), id, AfterSwitchOff(old(channels)[id], at), Touched(old(histories)[id], SeenLow), outcome)
        && FinishesTwice(old(Books()), Books(), hasReports, id, outcome == Value(0)))
      ensures err.Some? ==> ErrorRecorded(old(View()), id) && Books() == old(Books())
      ensures KeptBut(old(View()), View(), {id}) && old(calls) <= calls
    {
      hide KeptBut, BoardOk, Shaped, SettledBut, BooksOk, HistoryRead, AfterRead, ReadDto, AfterSwitchOff, Touched,
        FinishesTwice, ErrorRecorded;
      ghost var b := View();
      OkGives(b, id, clock);
      at, outcome := 0, Failure("");
      var acknowledged := SendLow(id);
      if !acknowledged {
        assert View() == b;
        MarkError(id);
        return Some(OutputError), at, outcome;
      }
      at, outcome := RecordSwitchOff(id, b);
      err := None;
    }

    lemma StillDue(id: string)
      requires BooksOk()
      ensures BooksOkBut({id})
    {
      hide LedgerOk, OpenedEarlier;
    }

    lemma AllStartedBefore()
      requires BooksOk() && BoardOk(View(), clock)
      ensures forall id | id in externalReports :: externalReports[id].startedAt <= clock
    {
      hide BoardOk, LedgerOk, Shaped, AllAccounted;
      forall id | id in externalReports
        ensures externalReports[id].startedAt <= clock
      {
        OkGives(View(), id, clock);
        StillDue(id);
        StartedBefore(View(), id, clock);
      }
    }

    // No open report of a channel starts later than now.
    lemma StartedBefore(b: Board, id: string, now: nat)
      requires BooksOkBut({id}) && b == View().(histories := b.histories) && BoardOk(b, now) && id in order
      ensures id in externalReports ==> externalReports[id].startedAt <= now
    {
      hide BoardOk, SettledBut, LedgerOk, Shaped, LevelIsLatest, AllAccounted;
      OkGives(b, id, now);
    }

    // What follows an acknowledged switch-on; b was the board before it.
    method RecordSwitchOn(id: string, ghost b: Board) returns (ghost at: nat, ghost outcome: Outcome)
      requires BoardOk(b, clock) && BooksOk() && id in b.order && id in b.histories
      requires View() == b.(histories := b.histories[id := Touched(b.histories[id], SwitchedOn)])
      modifies `channels, `cachedChannels, `strikeActive, `histories, `clock, `externalReports, `calls
      ensures BoardOk(View(), clock) && BooksOk()
      ensures id in b.channels && |b.cached| == |b.order| && old(clock) <= at <= clock
      ensures Switched(b, id, AfterSwitchOn(b.channels[id], at), Touched(b.histories[id], SwitchedOn), outcome)
      ensures if outcome == Value(0) then Finishes(old(Books()), Books(), hasReports, id, Completed)
              else Books() == old(Books())
      ensures KeptBut(b, View(), {id}) && old(calls) <= calls
    {
      hide KeptBut, BoardOk, Shaped, SettledBut, AnyOn, Position, Based, LedgerOk, HistoryRead, AfterRead, ReadDto,
        AfterSwitchOff, AfterSwitchOn, OpenedEarlier, AllAccounted, Finishes, Fewer;
      OkGives(b, id, clock);
      var now := Now();
      at := now;
      SwitchUnsettles(b, id, old(clock), now);
      SwitchKeepsTimes(channels[id], now);
      OpenedKept(externalReports, channels, id, AfterSwitchOn(channels[id], now));
      channels := channels[id := AfterSwitchOn(channels[id], now)];
      assert View() == PutChannel(b, id, channels[id], histories[id]);
      ghost var c, h := channels[id], histories[id];
      var dto, answer := ReadChannel(id);
      outcome := answer;
      PutTwice(b, id, c, h, channels[id], histories[id], dto);
      KeptByRead(b, View(), id, c, h, clock, outcome, dto);
    }

    // setTimedStateLocked
    method SetTimedState(id: string, seconds: int, ghost manual: bool)
      returns (err: Option<Failure>, ghost at: nat, ghost outcome: Outcome)
      requires BoardOk(View(), clock) && BooksOk()
      modifies `channels, `cachedChannels, `strikeActive, `histories, `clock, `externalReports, `calls, `commands
      ensures BoardOk(View(), clock) && BooksOk() && clock >= old(clock)
      ensures id !in order ==> err == Some(ChannelNotFound) && View() == old(View())
      ensures id in order ==> id in old(channels) && id in old(histories) && |old(cachedChannels)| == |order|
      ensures id in order && !IsStrike(defs, id) ==>
        (err == Some(ChannelReserved) && Switched(old(View()), id, old(channels)[id], old(histories)[id], outcome))
      ensures IsStrike(defs, id) ==> id in order && err in {None, Some(OutputError)}
      ensures commands == old(commands)
        || (IsStrike(defs, id) && commands == old(commands) + [Timed(id, seconds, err.None?, manual)])
      ensures err.None? ==> (IsStrike(defs, id) && commands != old(commands) && old(clock) <= at <= clock
        && Switched(old(View()), id, AfterSwitchOn(old(channels)[id], at), Touched(old(histories)[id], SwitchedOn), outcome))
      ensures err == Some(OutputError) ==> id in order && ErrorRecorded(old(View()), id)
      ensures KeptBut(old(View()), View(), {id}) && old(calls) <= calls
    {
      hide BoardOk, Shaped, SettledBut, AnyOn, Position, Based, BooksOk, HistoryRead, AfterRead, ReadDto, AfterSwitchOff,
        AfterSwitchOn, Touched, Finishes, KeptBut, ErrorRecorded;
      ghost var b := View();
      OkGives(b, id, clock);
      at, outcome := 0, Failure("");
      if id !in channels {
        KeptSelf(b, {id});
        return Some(ChannelNotFound), at, outcome;
      }
      if channels[id].def.reserved {
        var dto, answer := ReadChannel(id);
        outcome := answer;
        KeptByRead(b, View(), id, b.channels[id], b.histories[id], clock, outcome, dto);
        return Some(ChannelReserved), at, outcome;
      }
      // Setup may fail, and the output may offer no timed control.
      var ready := *;
      if !ready {
        MarkError(id);
        return Some(OutputError), at, outcome;
      }
      var acknowledged := SendHighFor(id, seconds, manual);
      if !acknowledged {
        assert View() == b;
        MarkError(id);
        return Some(OutputError), at, outcome;
      }
      at, outcome := RecordSwitchOn(id, b);
      err := None;
    }

    // setStateLocked. No caller passes `enabled` for a strike channel.
    method SetStateLocked(id: string, enabled: bool)
      returns (err: Option<Failure>, ghost at: nat, ghost outcome: Outcome)
      requires BoardOk(View(), clock) && BooksOk()
      modifies `channels, `cachedChannels, `strikeActive, `histories, `clock, `externalReports, `calls, `commands
      ensures BoardOk(View(), clock) && BooksOk() && clock >= old(clock)
      ensures id !in order ==> err == Some(ChannelNotFound) && View() == old(View())
      ensures id in order ==> id in old(channels) && id in old(histories) && |old(cachedChannels)| == |order|
      ensures id in order && !IsStrike(defs, id) ==>
        (err == Some(ChannelReserved) && Switched(old(View()), id, old(channels)[id], old(histories)[id], outcome))
      ensures !IsStrike(defs, id) ==> commands == old(commands)
      ensures IsStrike(defs, id) ==> id in order && err in {None, Some(OutputError)}
      ensures IsStrike(defs, id) && !enabled ==> commands == old(commands) + [SetLow(id, err.None?)]
      ensures IsStrike(defs, id) && enabled ==> (commands == old(commands) + [UntimedHigh(id)]
        || (err.Some? && commands == old(commands)))
      ensures err.None? && !enabled ==> (old(clock) <= at <= clock && id in order
        && Switched(old(View()), id, AfterSwitchOff(old(channels)[id], at), Touched(old(histories)[id], SeenLow), outcome)
        && FinishesTwice(old(Books()), Books(), hasReports, id, outcome == Value(0)))
      ensures err.None? && enabled ==> (old(clock) <= at <= clock && id in order
        && Switched(old(View()), id, AfterSwitchOn(old(channels)[id], at), Touched(old(histories)[id], SwitchedOn), outcome))
      ensures err == Some(OutputError) ==> id in order && ErrorRecorded(old(View()), id)
      ensures KeptBut(old(View()), View(), {id}) && old(calls) <= calls
    {
      hide KeptBut, BoardOk, Shaped, SettledBut, AnyOn, Position, Based, BooksOk, HistoryRead, AfterRead, ReadDto,
        AfterSwitchOff, AfterSwitchOn, Touched, Finishes, FinishesTwice, ErrorRecorded;
      ghost var b := View();
      OkGives(b, id, clock);
      at, outcome := 0, Failure("");
      if id !in channels {
        KeptSelf(b, {id});
        return Some(ChannelNotFound), at, outcome;
      }
      if channels[id].def.reserved {
        var dto, answer := ReadChannel(id);
        outcome := answer;
        KeptByRead(b, View(), id, b.channels[id], b.histories[id], clock, outcome, dto);
        return Some(ChannelReserved), at, outcome;
      }
      if enabled {
        var ready := *;
        if !ready {
          MarkError(id);
          return Some(OutputError), at, outcome;
        }
        var acknowledged := SendHigh(id);
        if !acknowledged {
          assert View() == b;
          MarkError(id);
          return Some(OutputError), at, outcome;
        }
        at, outcome := RecordSwitchOn(id, b);
        err := None;
      } else {
        err, at, outcome := SwitchOff(id);
      }
    }

    // ---- looking at every strike channel ----

    ghost predicate IsFirstStrike(i: nat)
      requires i < |order|
    {
      IsStrike(defs, order[i]) && forall k | 0 <= k < i :: !IsStrike(defs, order[k])
    }

    // One strike channel: marked if the relay is found offline for it and no probe is allowed, and
    // read otherwise.
    method Look(id: string, probe: bool) returns (enabled: bool, known: bool, ghost marked: bool)
      requires BoardOk(View(), clock) && BooksOk() && IsStrike(defs, id)
      modifies `channels, `cachedChannels, `strikeActive, `histories, `clock, `looks, `externalReports, `calls
      ensures BoardOk(View(), clock) && BooksOk() && clock >= old(clock) && old(looks) <= looks && old(calls) <= calls
      ensures KeptBut(old(View()), View(), {id}) && PolledAt(old(View()), View(), id, marked)
      ensures enabled == IsOn(channels, id) && known == KnownAt(channels, id)
      ensures Fewer(externalReports, old(externalReports))
      ensures if marked then !probe && Outages() == old(Outages()) + 1
              else old(Outages()) <= Outages() <= old(Outages()) + if probe then 1 else 0
    {
      hide BoardOk, Shaped, SettledBut, AnyOn, Position, Based, BooksOk, HistoryRead, AfterRead, ReadDto, KnownAt, IsOn, PolledAt,
        KeptBut, Finishes, Found;
      ghost var mid := View();
      OkGives(mid, id, clock);
      var offline := Offline();
      marked := offline && !probe;
      if offline && !probe {
        var dto := MarkOffline(id);
        ghost var message :| var c := AfterOffline(mid.channels[id], message);
          dto == ToDto(c) && View() == Synced(Put(mid, id, c, mid.histories[id].(offline := true), dto));
        OfflinePolls(mid, View(), id, message, dto);
        return false, false, marked;
      }
      var dto, outcome := ReadChannel(id);
      ReadPolls(mid, View(), id, clock, outcome);
      return dto.enabled, outcome.Value?, marked;
    }

    // screenStrikeSnapshotWithPolicyLocked: which strike channels are on, and whether the levels of
    // all of them could be read. A channel is marked instead of read exactly when the relay is
    // found offline for it, unless that is the one probe allowed.
    method Snapshot(allowOfflineProbe: bool) returns (on: seq<string>, full: bool, ghost marked: set<string>)
      requires BoardOk(View(), clock) && BooksOk()
      modifies `channels, `cachedChannels, `strikeActive, `histories, `clock, `looks, `externalReports, `calls
      ensures BoardOk(View(), clock) && BooksOk() && clock >= old(clock) && old(looks) <= looks && old(calls) <= calls
      ensures Surveyed(old(View()), View(), |order|, marked, false)
      ensures on == OnIds(order, channels) && (full <==> AllKnown(order, channels))
      ensures Fewer(externalReports, old(externalReports))
      ensures old(Outages()) + |marked| <= Outages() <= old(Outages()) + |marked| + if allowOfflineProbe then 1 else 0
      ensures allowOfflineProbe ==> forall i | 0 <= i < |order| && IsFirstStrike(i) :: order[i] !in marked
    {
      hide BoardOk, Shaped, Surveyed, SettledBut, AnyOn, Based, BooksOk, OnIds, AllKnown, KnownAt, IsOn, PolledAt, KeptBut,
        NoRepeats, Found;
      ghost var b := View();
      OkGives(b, "", clock);
      SurveyStart(b, false);
      var probe := allowOfflineProbe;
      on, full, marked := [], true, {};
      for i := 0 to |order|
        invariant BoardOk(View(), clock) && BooksOk() && clock >= old(clock) && old(looks) <= looks && old(calls) <= calls
        invariant Surveyed(b, View(), i, marked, false)
        invariant Fewer(externalReports, old(externalReports))
        invariant on == OnIds(order[..i], channels) && (full <==> AllKnown(order[..i], channels))
        invariant |marked| <= Outages() - old(Outages()) <= |marked| + if allowOfflineProbe && !probe then 1 else 0
        invariant probe ==> allowOfflineProbe && marked == {} && forall k | 0 <= k < i :: !IsStrike(defs, order[k])
        invariant allowOfflineProbe ==> forall k | 0 <= k < |order| && IsFirstStrike(k) :: order[k] !in marked
        invariant allowOfflineProbe && !probe ==> exists k | 0 <= k < i :: IsStrike(defs, order[k])
      {
        var id := order[i];
        ghost var mid := View();
        OkGives(mid, id, clock);
        if channels[id].def.reserved {
          SurveySkip(b, mid, i, marked);
        } else {
          NotYetMarked(b, mid, i, marked, false);
          ghost var mark;
          var enabled, known;
          enabled, known, mark := Look(id, probe);
          ghost var more := if mark then marked + {id} else marked;
          SurveyStep(b, mid, View(), i, marked, more, false);
          marked := more;
          probe := false;
          full := full && known;
          if enabled {
            on := on + [id];
          }
        }
      }
      assert order[..|order|] == order;
    }

    // The same as evidence that can be told from later: what was polled stays in the histories.
    method TakeSnapshot() returns (on: seq<string>, full: bool)
      requires BoardOk(View(), clock) && BooksOk()
      modifies `channels, `cachedChannels, `strikeActive, `histories, `clock, `looks, `externalReports, `calls
      ensures BoardOk(View(), clock) && BooksOk() && clock >= old(clock) && old(looks) <= looks && old(calls) <= calls
      ensures Outages() >= old(Outages()) && Onward(old(View()), View())
      ensures Looked(old(View()), View(), View(), old(looks), looks, clock)
      ensures on == OnIds(order, channels) && (full <==> AllKnown(order, channels))
      ensures Fewer(externalReports, old(externalReports))
    {
      hide BoardOk, Shaped, Surveyed, BooksOk, OnIds, AllKnown, Found, Looked, Onward;
      ghost var marked;
      ghost var b := View();
      on, full, marked := Snapshot(false);
      SurveyedOnward(b, View(), |order|, marked, false);
      LookedNow(b, View(), old(looks), looks, clock, marked);
    }

    // ---- platform reports ----

    method FinishActiveReport(how: Ending)
      requires BooksOk()
      modifies `activeReport, `calls
      ensures BooksOk() && old(calls) <= calls
      ensures Books() == if hasReports && old(activeReport).Some? then WithoutPlatform(old(Books()), how) else old(Books())
      ensures activeReport == if hasReports then None else old(activeReport)
    {
      hide LedgerOk, OpenedEarlier, AllAccounted;
      if !hasReports || activeReport.None? {
        return;
      }
      PlatformEndOk(Books(), how);
      AccountedCalls(externalReports, openedAt, histories, calls, [EndPlatform(activeReport.value.id, how)], storeRemoved, {});
      calls := calls + [EndPlatform(activeReport.value.id, how)];
      activeReport := None;
    }

    // The running report is over once every one of its channels is known to be low.
    method FinishCompletedReportIfInactive(full: bool) returns (finished: bool)
      requires BooksOk()
      modifies `activeReport, `calls
      ensures BooksOk() && old(calls) <= calls
      ensures finished <==> full && AllLow(channels, old(activeReport))
      ensures finished <==>
        (full && old(activeReport).Some?
         && forall id | id in old(activeReport).value.channelIds :: id in channels && channels[id].actual == Low)
      ensures Books() == if finished && hasReports then WithoutPlatform(old(Books()), Completed) else old(Books())
      ensures activeReport == if finished && hasReports then None else old(activeReport)
    {
      hide BooksOk;
      if activeReport.None? || !full {
        return false;
      }
      var ids := activeReport.value.channelIds;
      for i := 0 to |ids|
        invariant forall k | 0 <= k < i :: ids[k] in channels && channels[ids[k]].actual == Low
      {
        if ids[i] !in channels || channels[ids[i]].actual != Low {
          return false;
        }
      }
      FinishActiveReport(Completed);
      finished := true;
    }

    method CreateRunningReport(selected: seq<string>, startedAt: nat, seconds: int)
      requires BooksOk() && (hasReports ==> activeReport.None?)
      modifies `activeReport, `calls, `storeIds
      ensures BooksOk() && old(calls) <= calls
      ensures !hasReports ==> Books() == old(Books())
      ensures hasReports ==> ((Books() == Logged(old(Books()), CreateRefused) && Told(old(calls), CreateRefused))
        || (storeIds > old(storeIds)
            && Books() == WithPlatform(old(Books()), storeIds, Platform(storeIds, selected, startedAt, seconds))))
    {
      hide LedgerOk, OpenedEarlier, AllAccounted;
      if !hasReports {
        return;
      }
      var created: nat := *;
      if created <= storeIds {
        RefusalOk(Books(), CreateRefused);
        AccountedCalls(externalReports, openedAt, histories, calls, [CreateRefused], storeRemoved, {});
        calls := calls + [CreateRefused];
        return;
      }
      var report := Platform(created, selected, startedAt, seconds);
      PlatformOk(Books(), created, report);
      AccountedCalls(externalReports, openedAt, histories, calls, [CreatePlatform(created)], storeRemoved, {});
      calls := calls + [CreatePlatform(created)];
      activeReport := Some(report);
      storeIds := created;
    }

    method CreateFailedReport()
      requires BooksOk()
      modifies `calls
      ensures BooksOk() && old(calls) <= calls
      ensures Books() == if hasReports then Logged(old(Books()), CreateFailed) else old(Books())
    {
      hide LedgerOk, OpenedEarlier, AllAccounted;
      if !hasReports {
        return;
      }
      RefusalOk(Books(), CreateFailed);
      AccountedCalls(externalReports, openedAt, histories, calls, [CreateFailed], storeRemoved, {});
      calls := calls + [CreateFailed];
    }

    // ---- stopping ----

    // stopScreenStrikeChannelIDsLocked
    method StopChannels(ids: seq<string>) returns (err: Option<Failure>, ghost lows: seq<Command>)
      requires BoardOk(View(), clock) && BooksOk() && forall i | 0 <= i < |ids| :: IsStrike(defs, ids[i])
      modifies `channels, `cachedChannels, `strikeActive, `histories, `clock, `looks, `externalReports, `calls
      modifies `commands
      ensures BoardOk(View(), clock) && BooksOk() && clock >= old(clock) && Outages() >= old(Outages())
      ensures old(looks) <= looks && old(calls) <= calls
      ensures commands == old(commands) + lows && Stops(ids, lows)
      ensures err.None? <==> Clean(ids, lows)
      ensures looks == old(looks) + Answers(|lows|, |lows| < |ids|)
      ensures KeptBut(old(View()), View(), set id | id in ids)
      ensures |lows| == |ids| || Outages() > old(Outages())
      ensures err == Some(DeviceOffline) ==> Outages() > old(Outages())
    {
      hide BoardOk, BooksOk, KeptBut, Clean, Stops, AfterSwitchOff, AfterSwitchOn, Touched, FinishesTwice, Shaped, Found,
        ErrorRecorded, Switched, View, Books, Put, Synced;
      ghost var b := View();
      OkGives(b, "", clock);
      KeptSelf(b, set id | id in ids);
      err, lows := None, [];
      assert Stops(ids, []) && Clean(ids[..0], []) by {
        StopsNone(ids);
      }
      for i := 0 to |ids|
        invariant BoardOk(View(), clock) && BooksOk() && clock >= old(clock) && Outages() >= old(Outages())
        invariant looks == old(looks) + Answers(i, false) && old(calls) <= calls
        invariant commands == old(commands) + lows && Stops(ids, lows) && |lows| == i
        invariant (err.None? <==> Clean(ids[..i], lows)) && err in {None, Some(OutputError)}
        invariant KeptBut(b, View(), set id | id in ids)
      {
        var offline := Offline();
        AnswersSnoc(i);
        if offline {
          CleanNeedsAll(ids, lows);
          return if err.None? then Some(DeviceOffline) else err, lows;
        }
        ghost var mid := View();
        var failure, at, outcome := SetStateLocked(ids[i], false);
        KeptWider(mid, View(), {ids[i]}, set id | id in ids);
        KeptChain(b, mid, View(), set id | id in ids);
        StopsSnoc(ids, lows, failure.None?);
        lows := lows + [SetLow(ids[i], failure.None?)];
        if failure.Some? && err.None? {
          err := failure;
        }
      }
      assert ids[..|ids|] == ids;
    }

    // One pass of a stop, all but its consequences for report and flag.
    method StopPass() returns (err: Option<Failure>, ghost seen: Board, ghost lows: seq<Command>)
      requires Inv()
      modifies `channels, `cachedChannels, `strikeActive, `histories, `clock, `looks, `externalReports, `calls
      modifies `commands
      ensures Inv() && clock >= old(clock) && Outages() >= old(Outages()) && old(looks) <= looks && old(calls) <= calls
      ensures Looked(old(View()), seen, View(), old(looks), looks, clock)
      ensures commands == old(commands) + lows && Stops(Targets(seen, activeReport), lows)
      ensures err.None? <==> Clean(Targets(seen, activeReport), lows)
      ensures Covers(seen, activeReport, lows, err.None?)
      ensures Sent(old(looks), looks, |lows|, |lows| < |Targets(seen, activeReport)|)
    {
      hide BoardOk, BooksOk, Clean, Stops, OnIds, AllKnown, AllAllowed, Shaped, IsStrike, KeptBut, Found, Looked,
        Onward, Covers;
      ghost var b := View();
      var on, full := TakeSnapshot();
      seen := View();
      ghost var then_, at := looks, clock;
      OkGives(seen, "", clock);
      OnAreStrikes(seen);
      if on == [] && !full && activeReport.Some? {
        on := activeReport.value.channelIds;
      }
      assert on == Targets(seen, activeReport);
      err, lows := StopChannels(on);
      TargetsCover(seen, at, activeReport, lows);
      StopsAllowed(old(commands), on, lows);
      KeptOnward(seen, View(), set id | id in on);
      SentNow(old(looks), then_, |lows|, |lows| < |on|);
      LookedLater(b, seen, seen, View(), old(looks), then_, looks, at, clock);
    }

    // The pass and a second look, whether everything could be read then.
    method StopAndLook() returns (err: Option<Failure>, full: bool, ghost seen: Board, ghost lows: seq<Command>)
      requires Inv()
      modifies `channels, `cachedChannels, `strikeActive, `histories, `clock, `looks, `externalReports, `calls
      modifies `commands
      ensures Inv() && clock >= old(clock) && Outages() >= old(Outages()) && old(looks) <= looks && old(calls) <= calls
      ensures Looked(old(View()), seen, View(), old(looks), looks, clock)
      ensures commands == old(commands) + lows && Stops(Targets(seen, activeReport), lows)
      ensures err.None? <==> Clean(Targets(seen, activeReport), lows)
      ensures Sent(old(looks), looks, |lows|, |lows| < |Targets(seen, activeReport)|)
      ensures full <==> AllKnown(order, channels)
    {
      hide BoardOk, BooksOk, Clean, Stops, OnIds, AllKnown, AllAllowed, IsStrike, View, Books, Found, Looked, Onward,
        Targets;
      ghost var b := View();
      err, seen, lows := StopPass();
      ghost var mid, then_, at := View(), looks, clock;
      var on;
      on, full := TakeSnapshot();
      SentLater(old(looks), then_, looks, |lows|, |lows| < |Targets(seen, activeReport)|);
      LookedLater(b, seen, mid, View(), old(looks), then_, looks, at, clock);
    }

    lemma ListsStrikes()
      requires ReportOk()
      ensures ReportsStrikes(Here())
    {
      hide IsStrike;
    }

    // The stop half of applyScreenStrikeWithTypeLocked. The pending flag is cleared only by a pass
    // whose every switch-off was acknowledged, and set by any other.
    method ApplyStop() returns (err: Option<Failure>)
      requires Inv()
      modifies `channels, `cachedChannels, `strikeActive, `histories, `clock, `looks, `externalReports, `calls
      modifies `commands, `activeReport, `pendingStrikeStop
      ensures Inv() && clock >= old(clock) && Outages() >= old(Outages()) && old(looks) <= looks && old(calls) <= calls
      ensures StopDone(old(Here()), Here()) && Covered(old(Here()), Here()) && pendingStrikeStop == err.Some?
      ensures activeReport ==
        if hasReports && (err.Some? || AllKnown(order, channels)) then None else old(activeReport)
    {
      hide BoardOk, BooksOk, Clean, Stops, OnIds, AllKnown, AllAllowed, IsStrike, View, Books, Found, Looked, Onward,
        Targets, Covered, Covers, Sent, ReportsStrikes;
      ghost var a := Here();
      ListsStrikes();
      var endedAt := Now();
      BoardOkLater(View(), old(clock), clock);
      var full;
      ghost var seen, lows;
      err, full, seen, lows := StopAndLook();
      if full || err.Some? {
        FinishActiveReport(Completed);
      }
      pendingStrikeStop := err.Some?;
      assert Passed(a, Here(), seen, lows);
      StopDoneCovers(a, Here());
    }

    // ---- starting ----

    // The requested strike channels in definition order, and what else was requested.
    method SelectRequested(requested: set<string>) returns (selected: seq<string>, left: set<string>)
      requires Shaped(View())
      ensures selected == SelectIds(order, defs, requested) && left == requested - set id | id in selected
    {
      hide Shaped;
      selected, left := [], requested;
      for i := 0 to |order|
        invariant selected == SelectIds(order[..i], defs, requested)
        invariant left == requested - set id | id in selected
      {
        var id := order[i];
        ShapedGives(View(), id);
        ShapedFresh(View(), i);
        assert order[..i + 1][..i] == order[..i];
        if !channels[id].def.reserved && id in left {
          selected := selected + [id];
          left := left - {id};
        }
      }
      assert order[..|order|] == order;
    }

    // validateScreenStrikeChannelsLocked
    method ValidateChannels(ids: seq<string>) returns (selected: seq<string>, err: Option<Failure>)
      requires Shaped(View())
      ensures err ==
        if Wanted(ids) == {} then Some(ChannelsRequired)
        else if forall id | id in Wanted(ids) :: IsStrike(defs, id) then None
        else Some(InvalidChannels)
      ensures err.None? ==> selected == SelectIds(order, defs, Wanted(ids)) && selected != []
    {
      hide Text.Trim, Wanted, Shaped;
      var requested: set<string> := {};
      WantedNone(ids);
      for i := 0 to |ids|
        invariant requested == Wanted(ids[..i])
      {
        WantedSnoc(ids, i);
        var id := Text.Trim(ids[i]);
        if id != "" {
          requested := requested + {id};
        }
      }
      assert ids[..|ids|] == ids;
      if requested == {} {
        return [], Some(ChannelsRequired);
      }
      var left;
      selected, left := SelectRequested(requested);
      SelectedAll(View(), requested);
      err := if left != {} then Some(InvalidChannels) else None;
    }

    // The last of the calls to the store since `before`.
    ghost predicate Told(before: seq<Call>, call: Call)
      reads `calls
    {
      before < calls && calls[|calls| - 1] == call
    }

    lemma ToldSince(before: seq<Call>, mid: seq<Call>, call: Call)
      requires before <= mid
      ensures Told(mid, call) ==> Told(before, call)
    {}

    // What every failed start leaves behind: a fresh look and a report of the failure.
    method ReportFailedStart()
      requires BoardOk(View(), clock) && BooksOk()
      modifies `channels, `cachedChannels, `strikeActive, `histories, `clock, `looks, `externalReports, `calls
      ensures BoardOk(View(), clock) && BooksOk() && clock >= old(clock) && Outages() >= old(Outages())
      ensures old(looks) <= looks && old(calls) <= calls
      ensures Onward(old(View()), View())
      ensures hasReports ==> Told(old(calls), CreateFailed)
    {
      hide BoardOk, BooksOk, Looked, OnIds, AllKnown, Onward, Found;
      var on, full := TakeSnapshot();
      CreateFailedReport();
    }

    ghost function OneHigh(id: string, seconds: int, acknowledged: bool, manual: bool): seq<Command>
      reads `pendingStrikeStop, `unattended
    {
      [HighFor(id, seconds, acknowledged, false, pendingStrikeStop, manual, unattended)]
    }

    // What follows a channel that fails: all the selected ones are switched off again.
    method StopSelected(selected: seq<string>) returns (ghost lows: seq<Command>)
      requires BoardOk(View(), clock) && BooksOk() && forall k | 0 <= k < |selected| :: IsStrike(defs, selected[k])
      modifies `channels, `cachedChannels, `strikeActive, `histories, `clock, `looks, `externalReports, `calls
      modifies `commands
      ensures BoardOk(View(), clock) && BooksOk() && clock >= old(clock) && Outages() >= old(Outages())
      ensures old(looks) <= looks && old(calls) <= calls
      ensures Onward(old(View()), View())
      ensures commands == old(commands) + lows && Stops(selected, lows)
      ensures Sent(old(looks), looks, |lows|, |lows| < |selected|)
      ensures hasReports ==> Told(old(calls), CreateFailed)
    {
      hide BoardOk, BooksOk, Shaped, Stops, Clean, KeptBut, View, Books, Found, Onward, Told, Answers, Sent;
      ghost var b := View();
      var ignored;
      ignored, lows := StopChannels(selected);
      KeptOnward(b, View(), set id | id in selected);
      SentNow(old(looks), old(looks), |lows|, |lows| < |selected|);
      ghost var mid, told, then_ := View(), calls, looks;
      ReportFailedStart();
      OnwardChain(b, mid, View());
      ToldSince(old(calls), told, CreateFailed);
      SentLater(old(looks), then_, looks, |lows|, |lows| < |selected|);
    }

    // One of the selected channels. If it fails, all of them are switched off again; if the relay is
    // found offline, they are not.
    method StartChannel(selected: seq<string>, i: nat, seconds: int, ghost manual: bool)
      returns (err: Option<Failure>, ghost sent: seq<Command>, ghost lows: seq<Command>)
      requires BoardOk(View(), clock) && BooksOk() && i < |selected|
      requires forall k | 0 <= k < |selected| :: IsStrike(defs, selected[k])
      modifies `channels, `cachedChannels, `strikeActive, `histories, `clock, `looks, `externalReports, `calls
      modifies `commands
      ensures BoardOk(View(), clock) && BooksOk() && clock >= old(clock) && Outages() >= old(Outages())
      ensures old(looks) <= looks && old(calls) <= calls
      ensures Onward(old(View()), View())
      ensures commands == old(commands) + sent + lows && Stops(selected, lows)
      ensures sent in {[], OneHigh(selected[i], seconds, true, manual), OneHigh(selected[i], seconds, false, manual)}
      ensures err.None? ==> sent == OneHigh(selected[i], seconds, true, manual) && lows == []
      ensures err in {None, Some(DeviceOffline), Some(OutputError)}
      ensures err == Some(DeviceOffline) ==> Outages() > old(Outages()) && lows == []
      ensures err == Some(OutputError) ==> Sent(old(looks), looks, |lows|, |lows| < |selected|)
      ensures err.Some? && hasReports ==> Told(old(calls), CreateFailed)
    {
      hide BoardOk, BooksOk, Shaped, Stops, Sent, KeptBut, AfterSwitchOn, Touched, Switched, ErrorRecorded, Synced, Put, View,
        Books, Found, Onward, Told, Answers;
      ghost var b, told, then_ := View(), calls, looks;
      sent, lows := [], [];
      StopsNone(selected);
      assert IsStrike(defs, selected[i]);
      OkKept(b, {}, clock);
      var offline := Offline();
      if offline {
        told := calls;
        ReportFailedStart();
        ToldSince(old(calls), told, CreateFailed);
        return Some(DeviceOffline), sent, lows;
      }
      var failure, at, outcome := SetTimedState(selected[i], seconds, manual);
      KeptOnward(b, View(), {selected[i]});
      ghost var mid := View();
      sent := if commands == old(commands) then [] else OneHigh(selected[i], seconds, failure.None?, manual);
      if failure.Some? {
        told, then_ := calls, looks;
        lows := StopSelected(selected);
        ToldSince(old(calls), told, CreateFailed);
        SentFrom(then_, old(looks), looks, |lows|, |lows| < |selected|);
        OnwardChain(b, mid, View());
        return failure, sent, lows;
      }
      offline := Offline();
      if offline {
        told := calls;
        ReportFailedStart();
        ToldSince(old(calls), told, CreateFailed);
        OnwardChain(b, mid, View());
        return Some(DeviceOffline), sent, lows;
      }
      err := None;
    }

    // The loop over the selected channels.
    method StartChannels(selected: seq<string>, seconds: int, ghost manual: bool)
      returns (err: Option<Failure>, ghost highs: seq<Command>, ghost lows: seq<Command>)
      requires BoardOk(View(), clock) && BooksOk() && !pendingStrikeStop
      requires forall i | 0 <= i < |selected| :: IsStrike(defs, selected[i])
      modifies `channels, `cachedChannels, `strikeActive, `histories, `clock, `looks, `externalReports, `calls
      modifies `commands
      ensures BoardOk(View(), clock) && BooksOk() && clock >= old(clock) && Outages() >= old(Outages())
      ensures old(looks) <= looks && old(calls) <= calls
      ensures Onward(old(View()), View())
      ensures commands == old(commands) + highs + lows
      ensures Highs(selected, seconds, manual, unattended, highs) && Stops(selected, lows)
      ensures err.None? ==> highs == AllHigh(selected, seconds, manual, unattended) && lows == []
      ensures err in {None, Some(DeviceOffline), Some(OutputError)}
      ensures err == Some(DeviceOffline) ==> Outages() > old(Outages()) && lows == []
      ensures err == Some(OutputError) ==> Sent(old(looks), looks, |lows|, |lows| < |selected|)
      ensures err.Some? && hasReports ==> Told(old(calls), CreateFailed)
    {
      hide BoardOk, BooksOk, Highs, Stops, AllHigh, View, Books, Found, Onward, Told, Sent;
      ghost var b := View();
      OkKept(b, {}, clock);
      lows := [];
      StopsNone(selected);
      highs := AllHigh(selected[..0], seconds, manual, unattended);
      AllHighNone(selected, seconds, manual, unattended);
      for i := 0 to |selected|
        invariant BoardOk(View(), clock) && BooksOk() && clock >= old(clock) && Outages() >= old(Outages())
        invariant old(looks) <= looks && old(calls) <= calls
        invariant Onward(b, View())
        invariant highs == AllHigh(selected[..i], seconds, manual, unattended)
        invariant Highs(selected, seconds, manual, unattended, highs)
        invariant commands == old(commands) + highs && lows == []
      {
        ghost var sent;
        ghost var mid, told, then_ := View(), calls, looks;
        err, sent, lows := StartChannel(selected, i, seconds, manual);
        OnwardChain(b, mid, View());
        ToldSince(old(calls), told, CreateFailed);
        HighsAnd(selected, seconds, manual, unattended, i, sent);
        highs := highs + sent;
        if err.Some? {
          if err == Some(OutputError) {
            SentFrom(then_, old(looks), looks, |lows|, |lows| < |selected|);
          }
          return;
        }
      }
      assert selected[..|selected|] == selected;
      err := None;
    }

    // Whether a start may go ahead: not while a strike channel is on, nor while a report runs and
    // not every level is known. `seen` is the board after the look that decides. A report that ran
    // is finished here, so none is running when the next one is created.
    method CheckIdle() returns (err: Option<Failure>, ghost seen: Board)
      requires Inv()
      modifies `channels, `cachedChannels, `strikeActive, `histories, `clock, `looks, `externalReports, `calls
      modifies `activeReport
      ensures Inv() && clock >= old(clock) && Outages() >= old(Outages()) && old(looks) <= looks && old(calls) <= calls
      ensures seen == View() && seen.order == order && Looked(old(View()), seen, seen, old(looks), looks, clock)
      ensures err ==
        if OnIds(order, seen.channels) != [] then Some(AlreadyActive)
        else if !AllKnown(order, seen.channels) && old(activeReport).Some? then Some(StateUnknown)
        else None
      ensures err.Some? ==> activeReport == old(activeReport)
      ensures err.None? ==> activeReport == if hasReports then None else old(activeReport)
    {
      hide BoardOk, BooksOk, Looked, Onward, OnIds, AllKnown, AllAllowed, IsStrike, Found;
      var on, full := TakeSnapshot();
      seen := View();
      if on != [] {
        return Some(AlreadyActive), seen;
      }
      if !full && activeReport.Some? {
        return Some(StateUnknown), seen;
      }
      if full && activeReport.Some? {
        NoneOnThoseLow(seen, clock, activeReport.value.channelIds);
      }
      var finished := FinishCompletedReportIfInactive(full);
      err := None;
    }

    // Switches on the selected channels; a look from moment a on, giving `seen`, has allowed it.
    method StartIdle(selected: seq<string>, seconds: int, startedAt: nat, ghost manual: bool, ghost a: Moment, ghost seen: Board)
      returns (err: Option<Failure>, ghost highs: seq<Command>, ghost lows: seq<Command>)
      requires Inv() && !pendingStrikeStop && !(manual && unattended) && MIN_SECONDS <= seconds <= MAX_SECONDS
      requires (forall id | id in selected :: IsStrike(defs, id)) && (hasReports ==> activeReport.None?)
      requires seen == View() && Looked(a.board, seen, seen, a.looks, looks, clock) && Found(a.looks) <= Outages()
      modifies `channels, `cachedChannels, `strikeActive, `histories, `clock, `looks, `externalReports, `calls
      modifies `commands, `activeReport, `storeIds
      ensures Inv() && clock >= old(clock) && Outages() >= old(Outages()) && old(looks) <= looks && old(calls) <= calls
      ensures Looked(a.board, seen, View(), a.looks, looks, clock)
      ensures commands == old(commands) + highs + lows
      ensures Highs(selected, seconds, manual, unattended, highs) && Stops(selected, lows)
      ensures err in {None, Some(DeviceOffline), Some(OutputError)}
      ensures err.None? ==> highs == AllHigh(selected, seconds, manual, unattended) && lows == []
      ensures err == Some(DeviceOffline) ==> Outages() > old(Outages()) && lows == []
      ensures err == Some(OutputError) ==> Sent(old(looks), looks, |lows|, |lows| < |selected|)
      ensures err.Some? ==> activeReport == old(activeReport) && (hasReports ==> Told(old(calls), CreateFailed))
      ensures err.None? && hasReports ==>
        ((activeReport.None? && Told(old(calls), CreateRefused))
         || (activeReport == Some(Platform(storeIds, selected, startedAt, seconds)) && storeIds > old(storeIds)))
    {
      hide BoardOk, BooksOk, Highs, Stops, AllHigh, Looked, OnIds, AllKnown, AllAllowed, IsStrike, View, AnyOn, Told,
        Found, Onward, Sent;
      ghost var then_, at := looks, clock;
      err, highs, lows := StartChannels(selected, seconds, manual);
      HighsAllowed(old(commands), selected, seconds, manual, unattended, highs);
      StopsAllowed(old(commands) + highs, selected, lows);
      LookedLater(a.board, seen, seen, View(), a.looks, then_, looks, at, clock);
      if err.Some? {
        return;
      }
      ghost var mid := View();
      then_, at := looks, clock;
      var on, full := TakeSnapshot();
      LookedLater(a.board, seen, mid, View(), a.looks, then_, looks, at, clock);
      ghost var told := calls;
      CreateRunningReport(selected, startedAt, seconds);
      ToldSince(old(calls), told, CreateRefused);
    }

    // Switches on the selected channels if nothing is on or unclear. The new report, if any, is fresh.
    method StartSelected(selected: seq<string>, seconds: int, startedAt: nat, ghost manual: bool)
      returns (err: Option<Failure>)
      requires Inv() && !pendingStrikeStop && !(manual && unattended) && MIN_SECONDS <= seconds <= MAX_SECONDS
      requires forall id | id in selected :: IsStrike(defs, id)
      modifies `channels, `cachedChannels, `strikeActive, `histories, `clock, `looks, `externalReports, `calls
      modifies `commands, `activeReport, `storeIds
      ensures Inv() && clock >= old(clock) && Outages() >= old(Outages()) && old(looks) <= looks && old(calls) <= calls
      ensures StartDone(old(Here()), Here(), Request(selected, seconds, manual, unattended), None, err)
      ensures err.Some? ==> activeReport in {old(activeReport), None}
      ensures err.None? && hasReports ==>
        ((activeReport.None? && Told(old(calls), CreateRefused))
         || (activeReport == Some(Platform(storeIds, selected, startedAt, seconds)) && storeIds > old(storeIds)))
      ensures err in {Some(DeviceOffline), Some(OutputError)} && hasReports ==> Told(old(calls), CreateFailed)
    {
      hide BoardOk, BooksOk, ReportOk, Highs, Stops, AllHigh, Looked, OnIds, AllKnown, AllAllowed, View, Books, Told,
        Found, Onward, IsStrike, Sent;
      ghost var a := Here();
      ghost var r := Request(selected, seconds, manual, unattended);
      ghost var seen, highs, lows;
      err, seen := CheckIdle();
      if err.Some? {
        StopsNone(selected);
        AllHighNone(selected, seconds, manual, unattended);
        assert commands == a.commands + [] + [];
        assert Begun(a, Here(), r, err, seen, [], []);
        return;
      }
      ghost var told, then_ := calls, looks;
      err, highs, lows := StartIdle(selected, seconds, startedAt, manual, a, seen);
      if err == Some(OutputError) {
        SentFrom(then_, a.looks, looks, |lows|, |lows| < |selected|);
      }
      ToldSince(a.calls, told, CreateRefused);
      ToldSince(a.calls, told, CreateFailed);
      assert Begun(a, Here(), r, err, seen, highs, lows);
    }

    // How a request to start is refused before the relay is looked at.
    ghost function Refusal(ids: seq<string>, seconds: int): Option<Failure> {
      if Wanted(ids) == {} then Some(ChannelsRequired)
      else if exists id | id in Wanted(ids) :: !IsStrike(defs, id) then Some(InvalidChannels)
      else if !(MIN_SECONDS <= seconds <= MAX_SECONDS) then Some(InvalidDuration)
      else None
    }

    // What a valid request asks for.
    ghost function Asked(ids: seq<string>, seconds: int, manual: bool): Request
      reads `unattended
    {
      Request(SelectIds(order, defs, Wanted(ids)), seconds, manual, unattended)
    }

    // Both in the words of the request: at least one name that is not blank, all of them of strike
    // channels, and 10 to 180 seconds; asked for are exactly the channels named.
    lemma RequestMeans(ids: seq<string>, seconds: int, manual: bool)
      requires forall id | IsStrike(defs, id) :: id in order
      ensures Refusal(ids, seconds).None? <==>
        ((exists i | 0 <= i < |ids| :: Text.Trim(ids[i]) != "")
         && (forall i | 0 <= i < |ids| :: Text.Trim(ids[i]) == "" || IsStrike(defs, Text.Trim(ids[i])))
         && 10 <= seconds <= 180)
      ensures Refusal(ids, seconds) == Some(ChannelsRequired) <==> forall i | 0 <= i < |ids| :: Text.Trim(ids[i]) == ""
      ensures Refusal(ids, seconds) == Some(InvalidDuration) ==> !(10 <= seconds <= 180)
      ensures Refusal(ids, seconds).None? ==> forall id ::
        id in Asked(ids, seconds, manual).selected <==> id != "" && exists i | 0 <= i < |ids| :: Text.Trim(ids[i]) == id
      ensures Asked(ids, seconds, manual).seconds == seconds && Asked(ids, seconds, manual).manual == manual
    {
      hide Text.Trim, IsStrike, SelectIds;
      var wanted := Wanted(ids);
      assert forall i | 0 <= i < |ids| && Text.Trim(ids[i]) != "" :: Text.Trim(ids[i]) in wanted;
    }

    // The start half of applyScreenStrikeWithTypeLocked, after its first refusals.
    method ApplyStart(ids: seq<string>, seconds: int, ghost manual: bool) returns (err: Option<Failure>)
      requires Inv() && !pendingStrikeStop && !(manual && unattended)
      modifies `channels, `cachedChannels, `strikeActive, `histories, `clock, `looks, `externalReports, `calls
      modifies `commands, `activeReport, `storeIds
      ensures Inv() && clock >= old(clock) && Outages() >= old(Outages()) && old(looks) <= looks && old(calls) <= calls
      ensures StartDone(old(Here()), Here(), Asked(ids, seconds, manual), Refusal(ids, seconds), err)
      ensures err.Some? ==> activeReport in {old(activeReport), None}
      ensures err.None? && hasReports && activeReport.None? ==> Told(old(calls), CreateRefused)
      ensures err.None? && hasReports && activeReport.Some? ==>
        (activeReport.value.id == storeIds > old(storeIds) && activeReport.value.seconds == seconds
         && activeReport.value.channelIds == Asked(ids, seconds, manual).selected)
      ensures err in {Some(DeviceOffline), Some(OutputError)} && hasReports ==> Told(old(calls), CreateFailed)
    {
      hide BoardOk, BooksOk, Highs, Stops, AllHigh, Looked, OnIds, AllKnown, AllAllowed, View, Wanted, IsStrike, Shaped, Found,
        Begun, Told, Onward;
      ghost var a := Here();
      var startedAt := Now();
      BoardOkLater(View(), old(clock), clock);
      OkGives(View(), "", clock);
      ghost var then_ := Here();
      var selected;
      selected, err := ValidateChannels(ids);
      if err.Some? {
        var on, full := TakeSnapshot();
        return;
      }
      if seconds < MIN_SECONDS || seconds > MAX_SECONDS {
        var on, full := TakeSnapshot();
        return Some(InvalidDuration);
      }
      err := StartSelected(selected, seconds, startedAt, manual);
      StartDoneFrom(a, then_, Here(), Asked(ids, seconds, manual), err);
    }

    // applyScreenStrikeWithTypeLocked
    method ApplyScreenStrikeLocked(enabled: bool, ids: seq<string>, seconds: int, manual: bool)
      returns (err: Option<Failure>)
      requires Inv()
      modifies `channels, `cachedChannels, `strikeActive, `histories, `clock, `looks, `externalReports, `calls
      modifies `commands, `activeReport, `storeIds, `pendingStrikeStop
      ensures Inv() && clock >= old(clock) && Outages() >= old(Outages()) && old(looks) <= looks && old(calls) <= calls
      ensures enabled ==>
        StartLocked(old(Here()), Here(), Asked(ids, seconds, manual), Refusal(ids, seconds), err)
      ensures !enabled ==> StopDone(old(Here()), Here()) && Covered(old(Here()), Here()) && pendingStrikeStop == err.Some?
    {
      hide BoardOk, BooksOk, StartDone, StopDone, OnIds, AllKnown, AllAllowed, Looked, Wanted, IsStrike, View, Books, Refusal,
        Found, Onward, Covered;
      if enabled && pendingStrikeStop {
        return Some(StopPending);
      }
      if enabled && manual && unattended {
        var on, full := TakeSnapshot();
        return Some(UnattendedActive);
      }
      if !enabled {
        err := ApplyStop();
      } else {
        err := ApplyStart(ids, seconds, manual);
      }
    }

    // markPendingStrikeStop
    method MarkPendingStrikeStop()
      requires Inv()
      modifies `pendingStrikeStop
      ensures Inv() && pendingStrikeStop
    {
      hide BoardOk, BooksOk, AllAllowed;
      pendingStrikeStop := true;
    }

    // applyScreenStrikeWithType. The two looks before a stop decide between remembering it, losing it
    // and making it.
    method ApplyScreenStrike(enabled: bool, ids: seq<string>, seconds: int, manual: bool) returns (err: Option<Failure>)
      requires Inv()
      modifies `channels, `cachedChannels, `strikeActive, `histories, `clock, `looks, `externalReports, `calls
      modifies `commands, `activeReport, `storeIds, `pendingStrikeStop
      ensures Inv() && clock >= old(clock) && Outages() >= old(Outages()) && old(looks) <= looks && old(calls) <= calls
      ensures enabled ==> StartCall(old(Here()), Here(), Asked(ids, seconds, manual), Refusal(ids, seconds), err)
      ensures !enabled ==> StopCall(old(Here()), Here(), err.Some?)
    {
      hide BoardOk, BooksOk, StartLocked, StopDone, AllAllowed, View, Books, Wanted, Refusal, Found;
      ghost var a := Here();
      if !enabled {
        var offline := Offline();
        if offline {
          MarkPendingStrikeStop();
          return Some(DeviceOffline);
        }
      }
      var offline := Offline();
      if offline {
        return Some(DeviceOffline);
      }
      assert looks == if enabled then a.looks + [false] else a.looks + [false, false];
      err := ApplyScreenStrikeLocked(enabled, ids, seconds, manual);
    }

    // retryPendingStrikeStop: a pass, unless the relay is found offline or no stop is pending.
    method RetryPendingStrikeStop()
      requires Inv()
      modifies `channels, `cachedChannels, `strikeActive, `histories, `clock, `looks, `externalReports, `calls
      modifies `commands, `activeReport, `storeIds, `pendingStrikeStop
      ensures Inv() && clock >= old(clock) && Outages() >= old(Outages()) && old(looks) <= looks && old(calls) <= calls
      ensures RetryCall(old(Here()), Here())
    {
      hide BoardOk, BooksOk, AllAllowed, View, Books, StopDone, Found;
      var offline := Offline();
      if offline {
        return;
      }
      if !pendingStrikeStop {
        return;
      }
      var err := ApplyScreenStrikeLocked(false, [], 0, false);
    }

    // ---- other requests ----

    // refreshScreenStrikeState
    method RefreshScreenStrikeState(allowOfflineProbe: bool) returns (ghost marked: set<string>)
      requires Inv()
      modifies `channels, `cachedChannels, `strikeActive, `histories, `clock, `looks, `externalReports, `calls
      modifies `activeReport
      ensures Inv() && clock >= old(clock) && old(looks) <= looks && old(calls) <= calls
      ensures Surveyed(old(View()), View(), |order|, marked, false)
      ensures old(Outages()) + |marked| <= Outages() <= old(Outages()) + |marked| + if allowOfflineProbe then 1 else 0
      ensures activeReport ==
        if hasReports && AllKnown(order, channels) && AllLow(channels, old(activeReport)) then None else old(activeReport)
    {
      hide BoardOk, BooksOk, AllAllowed, Surveyed, OnIds, AllKnown, IsStrike, Found;
      var now := Now();
      BoardOkLater(View(), old(clock), clock);
      var on, full;
      on, full, marked := Snapshot(allowOfflineProbe);
      var finished := FinishCompletedReportIfInactive(full);
    }

    // Every channel, reserved ones included, is polled, `marked` as often as the relay is found
    // offline; if it is at the first look, nothing is. The answer is the list as it then stands.
    method ListChannels() returns (list: seq<Dto>, ghost marked: set<string>)
      requires Inv()
      modifies `channels, `cachedChannels, `strikeActive, `histories, `clock, `looks, `externalReports, `calls
      ensures Inv() && clock >= old(clock) && old(looks) < looks && old(calls) <= calls
      ensures list == cachedChannels && |list| == |order|
      ensures if looks[|old(looks)|] then View() == old(View()) && Books() == old(Books())
              else Surveyed(old(View()), View(), |order|, marked, true) && Outages() == old(Outages()) + |marked|
    {
      hide BoardOk, BooksOk, AllAllowed, Shaped, PutCached, IsStrike, AfterRead, HistoryRead, AfterOffline, Finishes, ToDto,
        ReadDto, AnyOn, Found, Surveyed, KeptBut, PolledAt, OnIds, AllKnown, KnownAt, IsOn, NoRepeats, Fewer;
      ghost var b := View();
      OkGives(b, "", clock);
      SurveyStart(b, true);
      marked := {};
      var offline := Offline();
      if offline {
        return cachedChannels, marked;
      }
      list := [];
      for i := 0 to |order|
        invariant BoardOk(View(), clock) && BooksOk() && clock >= old(clock)
        invariant old(looks) + [false] <= looks && old(calls) <= calls
        invariant Surveyed(b, View(), i, marked, true) && Outages() == old(Outages()) + |marked|
        invariant |cachedChannels| == |order| && list == cachedChannels[..i]
      {
        NotYetMarked(b, View(), i, marked, true);
        ghost var mid := View();
        ghost var mark;
        var dto;
        dto, mark := ListChannel(order[i]);
        ghost var more := if mark then marked + {order[i]} else marked;
        SurveyStep(b, mid, View(), i, marked, more, true);
        marked := more;
        PutListed(mid, i, dto);
        list := list + [dto];
      }
    }

    method ListChannel(id: string) returns (dto: Dto, ghost marked: bool)
      requires BoardOk(View(), clock) && BooksOk() && id in order
      modifies `channels, `cachedChannels, `strikeActive, `histories, `clock, `looks, `externalReports, `calls
      ensures BoardOk(View(), clock) && BooksOk() && clock >= old(clock)
      ensures looks == old(looks) + [marked] && old(calls) <= calls
      ensures Outages() == old(Outages()) + if marked then 1 else 0
      ensures KeptBut(old(View()), View(), {id}) && PolledAt(old(View()), View(), id, marked)
      ensures |old(cachedChannels)| == |order| && Shaped(old(View()))
      ensures cachedChannels == PutCached(old(cachedChannels), order, id, dto)
    {
      hide BoardOk, Shaped, SettledBut, AnyOn, Position, Based, BooksOk, HistoryRead, AfterRead, ReadDto, KnownAt, IsOn, PolledAt,
        KeptBut, Finishes, Found, Fewer;
      ghost var mid := View();
      OkGives(mid, id, clock);
      var offline := Offline();
      marked := offline;
      if offline {
        dto := MarkOffline(id);
        ghost var message :| var c := AfterOffline(mid.channels[id], message);
          dto == ToDto(c) && View() == Synced(Put(mid, id, c, mid.histories[id].(offline := true), dto));
        OfflinePolls(mid, View(), id, message, dto);
      } else {
        var outcome;
        dto, outcome := ReadChannel(id);
        ReadPolls(mid, View(), id, clock, outcome);
      }
    }

    // ---- messages of the relay monitor ----

    // A message reaches the service; this is where it becomes evidence.
    ghost method Deliver(id: string, update: Update, at: nat)
      requires id in channels && id in histories
      modifies `histories
      ensures histories == old(histories)[id := Delivered(channels[id], old(histories)[id], update, at)]
      ensures old(BooksOk()) ==> BooksOk()
    {
      hide LedgerOk, OpenedEarlier, AllAccounted, Delivered;
      TakenKeepsTimes(channels[id], histories[id], update, at);
      if BooksOk() {
        AccountedTouch(externalReports, openedAt, histories, calls, storeRemoved, id,
          Delivered(channels[id], histories[id], update, at));
      }
      histories := histories[id := Delivered(channels[id], histories[id], update, at)];
    }

    method TakeMessage(id: string, update: Update, at: nat) returns (accepted: bool)
      requires AllSettled(View(), clock) && BooksOk() && id in order && 0 < at <= clock
      modifies `channels, `cachedChannels, `histories
      ensures AllSettled(View(), clock) && BooksOk()
      ensures id in old(channels) && (accepted <==> Accepted(old(channels)[id], update, at))
      ensures id in channels && (accepted <==> Counts(old(channels)[id], update, at))
      ensures LevelFollows(old(channels)[id], channels[id], update, at)
      ensures channels[id].softwareControlled == old(channels)[id].softwareControlled
      ensures !accepted ==> channels == old(channels)
      ensures TakenAt(old(View()), View(), id, update, at) && KeptBut(old(View()), View(), {id})
    {
      hide AllSettled, Shaped, Position, FrameCounts, Delivered, KeptBut, AfterFrame, LedgerOk, OpenedEarlier, AllAccounted,
        Grown, LevelFollows, Counts;
      ghost var b := View();
      TakenSettles(b, id, clock, update, at);
      TakenFollows(channels[id], update, at);
      TakenKeepsTimes(channels[id], histories[id], update, at);
      OpenedKept(externalReports, channels, id, Taken(channels[id], update, at));
      Deliver(id, update, at);
      var state := channels[id];
      assert View() == PutChannel(b, id, state, histories[id]);
      var reading := Reading(update, state.def);
      accepted := FrameCounts(state, at) && reading.Some?;
      if accepted {
        state := AfterFrame(state, at, reading.value);
        channels := channels[id := state];
        assert View() == PutChannel(b, id, state, histories[id]);
        CacheChannel(id, ToDto(state));
      }
      KeptByMessage(b, View(), id);
    }

    // The levels of all channels first, so that no report sees a mixture of old and new ones.
    method TakeMessages(update: Update, at: nat) returns (observed: set<string>, full: bool)
      requires AllSettled(View(), clock) && BooksOk() && 0 < at <= clock
      modifies `channels, `cachedChannels, `histories
      ensures AllSettled(View(), clock) && BooksOk()
      ensures Swept(old(View()), View(), update, at, |order|, observed)
      ensures full <==> update.error.None? && AllAccepted(old(View()), update, at, |order|)
      ensures observed == {} ==> channels == old(channels)
    {
      hide AllSettled, BooksOk, Shaped, Swept, TakenAt, KeptBut, Accepted, NoRepeats;
      ghost var b := View();
      SettledShaped(b, clock);
      SweepStart(b, update, at);
      observed, full := {}, update.error.None?;
      for i := 0 to |order|
        invariant AllSettled(View(), clock) && BooksOk()
        invariant Swept(b, View(), update, at, i, observed)
        invariant full <==> update.error.None? && AllAccepted(b, update, at, i)
        invariant observed == {} ==> channels == b.channels
      {
        var id := order[i];
        ghost var mid := View();
        SettledGives(mid, id, clock);
        if channels[id].def.reserved {
          SweepSkip(b, mid, update, at, i, observed);
        } else {
          var accepted := TakeMessage(id, update, at);
          SweepStep(b, mid, View(), update, at, i, observed);
          if accepted {
            observed := observed + {id};
          } else {
            full := false;
          }
        }
      }
    }

    // One channel whose new level was accepted.
    method SettleReport(id: string, at: nat)
      requires BoardOk(View(), clock) && BooksOk() && id in order
      requires id in channels && channels[id].relayObservedAt == at
      modifies `channels, `histories, `externalReports, `calls, `storeIds, `openedAt
      ensures BoardOk(View(), clock) && BooksOk() && KeptBut(old(View()), View(), {id})
      ensures old(calls) <= calls
      ensures id in old(channels) && id in old(histories) && id in channels && id in histories
      ensures
        var c, h := old(channels)[id], old(histories)[id];
        if !c.enabled then
          channels[id] == Released(c) && histories[id] == Touched(h, SeenLow)
          && Finishes(old(Books()), Books(), hasReports, id, Completed)
        else
          channels[id] == c && histories[id] == h
          && if c.softwareControlled then Books() == old(Books()) else Starts(old(Books()), Books(), hasReports, id, at)
    {
      hide BoardOk, LedgerOk, Shaped, KeptBut, Finishes, Starts, AnyOn, SettledBut, Grown, Fewer, AllAccounted;
      ghost var mid := View();
      OkGives(mid, id, clock);
      OkKept(mid, {id}, clock);
      if !channels[id].enabled {
        ReleaseOk(mid, id, clock);
        OpenedKept(externalReports, channels, id, Released(channels[id]));
        AccountedTouch(externalReports, openedAt, histories, calls, storeRemoved, id, Touched(histories[id], SeenLow));
        channels := channels[id := Released(channels[id])];
        histories := histories[id := Touched(histories[id], SeenLow)];
        assert View() == PutChannel(mid, id, channels[id], histories[id]);
        FinishExternalReport(id, Completed, at);
      } else if !channels[id].softwareControlled {
        StartExternalReport(id, at);
      }
    }

    // Software control and external reports, for the channels whose new level was accepted; a message
    // with an error leaves both alone.
    method SettleReports(ghost b: Board, update: Update, at: nat, observed: set<string>)
      requires BoardOk(View(), clock) && BooksOk()
      requires Swept(b, View(), update, at, |order|, observed) && NoRepeats(order) && b.order == order
      modifies `channels, `histories, `externalReports, `calls, `storeIds, `openedAt
      ensures BoardOk(View(), clock) && BooksOk() && old(calls) <= calls
      ensures Closing(b, View(), update, at, |order|)
      ensures Settling(b, update, at, hasReports, old(Books()), Books(), |order|)
    {
      hide BoardOk, BooksOk, Shaped, NoRepeats, Closing, Settling, KeptBut, RoleOf, AcceptedAt, Finishes, Starts, Touched, Swept,
        Released, SettledBut, Based;
      ghost var l := Books();
      CloseStart(b, View(), update, at, observed);
      if update.error.Some? {
        CloseError(b, View(), update, at);
        SettlingNone(b, update, at, hasReports, l);
        return;
      }
      SettlingStart(b, update, at, hasReports, l);
      SweptGives(b, View(), update, at, observed);
      for i := 0 to |order|
        invariant BoardOk(View(), clock) && BooksOk() && old(calls) <= calls
        invariant Closing(b, View(), update, at, i)
        invariant Settling(b, update, at, hasReports, l, Books(), i)
      {
        var id := order[i];
        ghost var mid, books := View(), Books();
        OkGives(mid, id, clock);
        if channels[id].def.reserved || id !in observed {
          CloseSkip(b, mid, update, at, i);
        } else {
          RoleSeen(b, mid, update, at, i);
          SettleReport(id, at);
          CloseStep(b, mid, View(), update, at, i);
        }
        SettlingStep(b, update, at, hasReports, l, books, Books(), i);
      }
    }

    // ObserveRelayState. Messages about the inputs alone are ignored.
    method ObserveRelayState(update: Update) returns (ghost at: nat)
      requires Inv()
      modifies `channels, `cachedChannels, `strikeActive, `histories, `clock, `externalReports, `calls
      modifies `storeIds, `activeReport, `openedAt
      ensures Inv() && clock >= old(clock) && old(calls) <= calls
      ensures update.inputs && update.error.None? ==> View() == old(View()) && Books() == old(Books())
      ensures !(update.inputs && update.error.None?) ==>
        0 < at <= clock && (update.time != 0 ==> at == update.time)
        && (forall i | 0 <= i < |order| && order[i] in defs && !defs[order[i]].reserved ::
              Followed(old(View()), View(), old(Books()), Books(), hasReports, order[i], update, at))
        && Observed(old(View()), View(), old(Books()), Books(), hasReports, update, at)
        && activeReport == if ReportOver(old(View()), update, at, old(activeReport)) then None else old(activeReport)
    {
      hide BoardOk, BooksOk, AllAllowed, Closing, Settling, Dealt, Observed, Swept, AcceptedAt, Followed,
        Complete, AllLow;
      if update.inputs && update.error.None? {
        return 0;
      }
      // The moment of processing: the message was sent no later.
      var now: nat :| now > 0 && now >= clock && now >= update.time;
      clock := now;
      var time := if update.time == 0 then now else update.time;
      at := time;
      ghost var b, l := View(), Books();
      BoardOkLater(b, old(clock), clock);
      ObserveLocked(update, time);
      AllFollow(b, View(), l, Books(), hasReports, update, at);
    }

    // A message ends the running report exactly if every strike channel, and at least one, accepts
    // it, and the report's channels are low then.
    ghost predicate ReportOver(b: Board, update: Update, at: nat, report: Option<Platform>)
      reads `hasReports, `channels
    {
      hasReports && Complete(b, update, at) && AllLow(channels, report)
    }

    // What ObserveRelayState does under the lock.
    method ObserveLocked(update: Update, at: nat)
      requires Inv() && 0 < at <= clock
      modifies `channels, `cachedChannels, `strikeActive, `histories, `externalReports, `calls, `storeIds
      modifies `activeReport, `openedAt
      ensures Inv() && old(calls) <= calls
      ensures Observed(old(View()), View(), old(Books()), Books(), hasReports, update, at)
      ensures activeReport == if ReportOver(old(View()), update, at, old(activeReport)) then None else old(activeReport)
    {
      hide BoardOk, BooksOk, AllAllowed, AllSettled, AnyOn, Shaped, NoRepeats, Closing, Settling, Dealt, Observed, IsStrike,
        Swept, AcceptedAt, Complete, AllAccepted, AllLow;
      ghost var b, l := View(), Books();
      OkSettled(b, clock);
      SweepStart(b, update, at);
      var observed, full := TakeMessages(update, at);
      SweptComplete(b, View(), update, at, observed);
      if observed == {} {
        CloseNone(b, View(), update, at);
        SettlingNone(b, update, at, hasReports, l);
        ObservedAll(b, View(), l, l, l, hasReports, update, at);
        StillOk(b, View(), clock);
        return;
      }
      SettleObserved(b, update, at, observed, full);
    }

    // The rest of it once some channel has accepted the message.
    method SettleObserved(ghost b: Board, update: Update, at: nat, observed: set<string>, full: bool)
      requires AllSettled(View(), clock) && BooksOk() && ReportOk() && NoRepeats(order) && b.order == order
      requires Swept(b, View(), update, at, |order|, observed) && (full <==> Complete(b, update, at))
      modifies `channels, `strikeActive, `histories, `externalReports, `calls, `storeIds, `activeReport, `openedAt
      ensures BoardOk(View(), clock) && BooksOk() && ReportOk() && old(calls) <= calls
      ensures Observed(b, View(), old(Books()), Books(), hasReports, update, at)
      ensures activeReport == if ReportOver(b, update, at, old(activeReport)) then None else old(activeReport)
    {
      hide BoardOk, BooksOk, AllSettled, AnyOn, Shaped, NoRepeats, Closing, Settling, Dealt, Observed, IsStrike, Swept,
        AcceptedAt, Complete, AllLow, WithoutPlatform, Logged, LedgerOk, Owns, Finishes, Starts;
      ghost var l := Books();
      SweptGives(b, View(), update, at, observed);
      SyncAll(b, View(), update, at, observed, clock);
      SyncStrikeActive();
      SettleReports(b, update, at, observed);
      ghost var mid := Books();
      var finished := FinishCompletedReportIfInactive(full);
      ObservedAll(b, View(), l, mid, Books(), hasReports, update, at);
    }

    // ---- unattended mode, one locked stretch at a time ----

    // setUnattended up to where it waits for the old loop to end, with the lock released.
    method CheckUnattended(ids: seq<string>, seconds: int) returns (err: Option<Failure>)
      requires Inv()
      modifies `channels, `cachedChannels, `strikeActive, `histories, `clock, `looks, `externalReports, `calls
      ensures Inv() && clock >= old(clock) && old(looks) < looks && old(calls) <= calls
      ensures err ==
        if looks[|old(looks)|] then Some(DeviceOffline)
        else if pendingStrikeStop then Some(StopPending)
        else if Refusal(ids, seconds).Some? then Refusal(ids, seconds)
        else if looks[|looks| - 1] then Some(DeviceOffline)
        else if OnIds(order, channels) != [] then Some(AlreadyActive)
        else None
    {
      hide BoardOk, BooksOk, AllAllowed, OnIds, AllKnown, IsStrike, Looked, Wanted, Shaped, Found, Onward;
      var offline := Offline();
      if offline {
        return Some(DeviceOffline);
      }
      if pendingStrikeStop {
        return Some(StopPending);
      }
      OkGives(View(), "", clock);
      var selected, failure := ValidateChannels(ids);
      if failure.Some? {
        var on, full := TakeSnapshot();
        return failure;
      }
      if seconds < MIN_SECONDS || seconds > MAX_SECONDS {
        var on, full := TakeSnapshot();
        return Some(InvalidDuration);
      }
      var on, full := TakeSnapshot();
      offline := Offline();
      if offline {
        return Some(DeviceOffline);
      }
      err := if on != [] then Some(AlreadyActive) else None;
    }

    // setUnattended once the lock is held again.
    method EnableUnattended()
      requires Inv()
      modifies `channels, `cachedChannels, `strikeActive, `histories, `clock, `looks, `externalReports, `calls
      modifies `unattended, `unattendedStriking
      ensures Inv() && clock >= old(clock) && Outages() >= old(Outages()) && old(looks) <= looks && old(calls) <= calls
      ensures unattended && !unattendedStriking
    {
      hide BoardOk, BooksOk, AllAllowed, OnIds, AllKnown, IsStrike, Looked, Onward, Found;
      unattended, unattendedStriking := true, false;
      var on, full := TakeSnapshot();
    }

    // disableUnattended up to where it waits: a stop must follow if one is pending, or if unattended
    // mode may have left something on. Otherwise, if the mode was on, nothing is: no strike channel
    // was last seen on, and no report runs.
    method CheckDisable() returns (needsStop: bool)
      requires Inv()
      ensures pendingStrikeStop || (unattended && OnIds(order, channels) != []) ==> needsStop
      ensures unattended && activeReport.Some? ==> needsStop
      ensures unattended && !needsStop ==> !pendingStrikeStop && OnIds(order, channels) == [] && activeReport.None?
      ensures !unattended ==> (needsStop <==> pendingStrikeStop)
      ensures needsStop ==> pendingStrikeStop || unattendedStriking || OnIds(order, channels) != [] || activeReport.Some?
    {
      hide OnIds, LedgerOk, AllAllowed, AllSettled;
      AnyOnIsOnIds(order, channels);
      var wasEnabled := unattended;
      var mayBeActive := unattendedStriking || strikeActive || activeReport.Some?;
      needsStop := pendingStrikeStop || (wasEnabled && mayBeActive);
    }

    // disableUnattended once the lock is held again; the stop, if any, is a call of its own.
    method DisableUnattended()
      requires Inv()
      modifies `unattended, `unattendedStriking
      ensures Inv() && !unattended && !unattendedStriking
    {
      hide BoardOk, BooksOk, AllAllowed;
      unattended, unattendedStriking := false, false;
    }

    // disableUnattended as a whole, when no other call comes in between. Without a stop, nothing was
    // on and nothing ran if the mode was on; with one, the law of stops applies.
    method Disable() returns (err: Option<Failure>, ghost stopped: bool)
      requires Inv()
      modifies `channels, `cachedChannels, `strikeActive, `histories, `clock, `looks, `externalReports, `calls
      modifies `commands, `activeReport, `storeIds, `pendingStrikeStop, `unattended, `unattendedStriking
      ensures Inv() && !unattended
      ensures if stopped then StopCall(old(Here()), Here(), err.Some?) else Here() == old(Here()) && !pendingStrikeStop
      ensures old(unattended) && !stopped ==> OnIds(order, channels) == [] && activeReport.None?
    {
      hide BoardOk, BooksOk, AllAllowed, View, Books, StopCall, StartCall, OnIds, Refusal, Wanted, Found;
      err := None;
      var needsStop := CheckDisable();
      DisableUnattended();
      stopped := needsStop;
      if needsStop {
        err := ApplyScreenStrike(false, [], 0, false);
      }
    }

    // updateUnattendedStatus
    method UpdateUnattendedStatus(striking: bool)
      requires Inv()
      modifies `channels, `cachedChannels, `strikeActive, `histories, `clock, `looks, `externalReports, `calls
      modifies `unattendedStriking
      ensures Inv() && clock >= old(clock) && Outages() >= old(Outages()) && old(looks) <= looks && old(calls) <= calls
      ensures unattendedStriking == if unattended then striking else old(unattendedStriking)
    {
      hide BoardOk, BooksOk, AllAllowed, OnIds, AllKnown, IsStrike, Looked, Onward, Found;
      if !unattended {
        return;
      }
      unattendedStriking := striking;
      var on, full := TakeSnapshot();
    }

    // ---- one channel by hand, and the end ----

    // After a change to one channel every strike channel was polled, as many of them marked as the
    // relay was found offline since.
    ghost predicate LookedAround(b: Board, id: string, outages: nat)
      reads this
    {
      exists mid, marked ::
        KeptBut(b, mid, {id}) && Surveyed(mid, View(), |order|, marked, false) && Outages() == outages + |marked|
    }

    // SetState: by hand a channel can only be switched off.
    method SetState(name: string, enabled: bool) returns (err: Option<Failure>)
      requires Inv()
      modifies `channels, `cachedChannels, `strikeActive, `histories, `clock, `looks, `externalReports, `calls
      modifies `commands, `activeReport
      ensures Inv() && clock >= old(clock) && Outages() >= old(Outages()) && old(looks) <= looks && old(calls) <= calls
      ensures enabled ==> err.Some?
      ensures
        var id := Text.Trim(name);
        if enabled || !IsStrike(defs, id) || err == Some(DeviceOffline) then commands == old(commands)
        else commands == old(commands) + [SetLow(id, err.None?)]
      ensures var id := Text.Trim(name);
        && (err.None? ==> id in order)
        && (id !in order ==> err in {Some(DeviceOffline), Some(ChannelNotFound)})
        && (id in order && !IsStrike(defs, id) ==> err in {Some(DeviceOffline), Some(ChannelReserved)})
        && (enabled && IsStrike(defs, id) ==> err in {Some(DeviceOffline), Some(TimedOperationRequired)})
      ensures activeReport ==
        if err.None? && hasReports && AllKnown(order, channels) && AllLow(channels, old(activeReport)) then None
        else old(activeReport)
      ensures err.None? ==> LookedAround(old(View()), Text.Trim(name), old(Outages()))
      ensures |looks| > |old(looks)| && (err == Some(DeviceOffline) <==> looks[|old(looks)|])
    {
      hide BoardOk, BooksOk, AllAllowed, OnIds, AllKnown, Surveyed, KeptBut, SettledBut, Based, FinishesTwice, Finishes, Shaped,
        Text.Trim, AnyOn, Books, Switched, ErrorRecorded, Found, Fewer;
      var id := Text.Trim(name);
      ghost var b := View();
      var offline := Offline();
      if offline {
        return Some(DeviceOffline);
      }
      OkGives(View(), id, clock);
      if id !in channels {
        return Some(ChannelNotFound);
      }
      if enabled && !channels[id].def.reserved {
        var dto, outcome := ReadChannel(id);
        return Some(TimedOperationRequired);
      }
      ghost var at, outcome;
      err, at, outcome := SetStateLocked(id, enabled);
      AllowedSnoc(old(commands), SetLow(id, err.None?));
      OkGives(View(), id, clock);
      if err.None? && !channels[id].def.reserved {
        ghost var mid := View();
        ghost var marked := RefreshScreenStrikeState(false);
        assert KeptBut(b, mid, {id}) && Surveyed(mid, View(), |order|, marked, false);
      }
    }

    // Ends every external report as abnormal.
    method EndExternalReports(endedAt: nat)
      requires BooksOk() && forall id | id in externalReports :: externalReports[id].startedAt <= endedAt
      modifies `externalReports, `calls
      ensures BooksOk() && Fewer(externalReports, old(externalReports)) && old(calls) <= calls
      ensures hasReports ==> AllEnded(Books(), {}, |old(calls)|)
    {
      hide BooksOk, Finishes, AllEnded;
      var ids := externalReports.Keys;
      NoneEnded(Books(), |calls|);
      while ids != {}
        invariant BooksOk() && Fewer(externalReports, old(externalReports)) && old(calls) <= calls
        invariant hasReports ==> AllEnded(Books(), ids, |old(calls)|)
        decreases |ids|
      {
        var id :| id in ids;
        ghost var before := Books();
        StillDue(id);
        FinishExternalReport(id, Abnormal, endedAt);
        if hasReports {
          EndedStep(before, Books(), ids, id, |old(calls)|);
        }
        ids := ids - {id};
      }
    }

    // Shutdown once the unattended loop has ended. An external report stays open only if the store
    // fails to end it now.
    method Shutdown()
      requires Inv()
      modifies `channels, `cachedChannels, `strikeActive, `histories, `clock, `looks, `externalReports, `calls
      modifies `activeReport
      ensures Inv() && clock >= old(clock) && old(looks) <= looks && old(calls) <= calls
      ensures hasReports ==> activeReport.None? && AllEnded(Books(), {}, |old(calls)|)
      ensures Fewer(externalReports, old(externalReports))
    {
      hide BoardOk, BooksOk, AllAllowed, OnIds, AllKnown, IsStrike, Surveyed, View, AllEnded, Found;
      var endedAt := Now();
      BoardOkLater(View(), old(clock), clock);
      AllStartedBefore();
      var on, full, marked := Snapshot(false);
      FinishActiveReport(Abnormal);
      ghost var n := |calls|;
      EndExternalReports(endedAt);
      if hasReports {
        EndedSince(Books(), n, |old(calls)|);
      }
    }
  }
}
