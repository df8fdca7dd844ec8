// All channels of the service together with the cached list shown to status requests and the
// strike-active flag. Models cacheChannel, syncScreenStrikeActiveLocked and the channel map of
// internal/interference/service.go.
// Here and in the modules above this one, `hide` keeps definitions that a proof does not need out
// of the solver's sight.
module Boards {
  import opened Channels

  // `defs` never changes.
  datatype Board = Board(
    order: seq<string>,
    defs: map<string, Definition>,
    channels: map<string, Channel>,
    cached: seq<Dto>,
    active: bool,
    histories: map<string, History>)

  predicate NoRepeats(order: seq<string>) { forall i, j | 0 <= i < j < |order| :: order[i] != order[j] }

  function Position(order: seq<string>, id: string): (i: nat)
    requires id in order
    ensures i < |order| && order[i] == id
  {
    if order[0] == id then 0 else 1 + Position(order[1..], id)
  }

  lemma PositionUnique(order: seq<string>, id: string)
    requires NoRepeats(order) && id in order
    ensures forall i | 0 <= i < |order| :: order[i] == id <==> i == Position(order, id)
  {}

  // Same identifiers everywhere, the list in definition order.
  ghost predicate Shaped(b: Board) {
    && NoRepeats(b.order)
    && b.defs.Keys == b.channels.Keys == b.histories.Keys == (set id | id in b.order)
    && |b.cached| == |b.order|
    && forall i | 0 <= i < |b.order| ::
         var def := b.defs[b.order[i]];
         def.id == b.order[i] && b.channels[b.order[i]].def == def && b.cached[i].def == def
  }

  // Reserved channels take no part in strikes.
  predicate IsStrike(defs: map<string, Definition>, id: string) { id in defs && !defs[id].reserved }

  // Some strike channel is on.
  predicate AnyOn(order: seq<string>, channels: map<string, Channel>) {
    exists i | 0 <= i < |order| ::
      order[i] in channels && !channels[order[i]].def.reserved && channels[order[i]].enabled
  }

  // The level of the channel is that of its latest evidence, and the list shows the channel.
  ghost predicate Settled(b: Board, i: nat, clock: nat)
    requires i < |b.order|
  {
    && i < |b.cached| && b.order[i] in b.channels && b.order[i] in b.histories
    && Sound(b.channels[b.order[i]], b.histories[b.order[i]], clock)
    && SameButError(b.cached[i], ToDto(b.channels[b.order[i]]))
  }

  ghost predicate SettledBut(b: Board, id: string, clock: nat) {
    Shaped(b) && forall i | 0 <= i < |b.order| && b.order[i] != id :: Settled(b, i, clock)
  }

  ghost predicate AllSettled(b: Board, clock: nat) {
    Shaped(b) && forall i | 0 <= i < |b.order| :: Settled(b, i, clock)
  }

  ghost predicate BoardOk(b: Board, clock: nat) {
    AllSettled(b, clock) && b.active == AnyOn(b.order, b.channels)
  }

  function PutCached(cached: seq<Dto>, order: seq<string>, id: string, dto: Dto): seq<Dto>
    requires id in order && |cached| == |order|
  {
    cached[Position(order, id) := dto]
  }

  function Put(b: Board, id: string, c: Channel, h: History, dto: Dto): Board
    requires id in b.order && |b.cached| == |b.order|
  {
    b.(channels := b.channels[id := c], histories := b.histories[id := h],
       cached := PutCached(b.cached, b.order, id, dto))
  }

  // Only the fields of the channel, not yet its place in the list.
  function PutChannel(b: Board, id: string, c: Channel, h: History): Board {
    b.(channels := b.channels[id := c], histories := b.histories[id := h])
  }

  function Synced(b: Board): Board { b.(active := AnyOn(b.order, b.channels)) }

  lemma SettledLater(b: Board, i: nat, clock: nat, now: nat)
    requires i < |b.order| && Settled(b, i, clock) && clock <= now
    ensures Settled(b, i, now)
  {
    LaterSound(b.channels[b.order[i]], b.histories[b.order[i]], clock, now);
  }

  lemma BoardLater(b: Board, clock: nat, now: nat)
    requires AllSettled(b, clock) && clock <= now
    ensures AllSettled(b, now)
  {
    hide Settled, Shaped;
    forall i | 0 <= i < |b.order|
      ensures Settled(b, i, now)
    {
      SettledLater(b, i, clock, now);
    }
  }

  lemma BoardOkLater(b: Board, clock: nat, now: nat)
    requires BoardOk(b, clock) && clock <= now
    ensures BoardOk(b, now)
  {
    hide AnyOn, AllSettled;
    BoardLater(b, clock, now);
  }

  lemma PutCachedAt(b: Board, id: string, dto: Dto)
    requires Shaped(b) && id in b.order
    ensures forall i | 0 <= i < |b.order| ::
      PutCached(b.cached, b.order, id, dto)[i] == if b.order[i] == id then dto else b.cached[i]
  {
    PositionUnique(b.order, id);
  }

  lemma PutListed(b: Board, i: nat, dto: Dto)
    requires Shaped(b) && i < |b.order|
    ensures var list := PutCached(b.cached, b.order, b.order[i], dto);
      |list| == |b.order| && list[..i] == b.cached[..i] && list[..i + 1] == b.cached[..i] + [dto]
  {
    PositionUnique(b.order, b.order[i]);
  }

  lemma PutChannelShaped(b: Board, id: string, c: Channel, h: History)
    requires Shaped(b) && id in b.order && c.def == b.defs[id]
    ensures Shaped(PutChannel(b, id, c, h))
  {
    hide NoRepeats;
    var b' := PutChannel(b, id, c, h);
    assert b'.channels.Keys == b.channels.Keys && b'.histories.Keys == b.histories.Keys;
  }

  lemma PutShaped(b: Board, id: string, c: Channel, h: History, dto: Dto)
    requires Shaped(b) && id in b.order && c.def == dto.def == b.defs[id]
    ensures Shaped(Put(b, id, c, h, dto))
  {
    hide NoRepeats, Position;
    PutChannelShaped(b, id, c, h);
    PutCachedAt(b, id, dto);
  }

  lemma PutChannelKeeps(b: Board, id: string, c: Channel, h: History, clock: nat, now: nat)
    requires SettledBut(b, id, clock) && id in b.order && clock <= now
    requires c.def == b.defs[id]
    ensures SettledBut(PutChannel(b, id, c, h), id, now)
  {
    hide Shaped, Sound, SameButError;
    PutChannelShaped(b, id, c, h);
    forall i | 0 <= i < |b.order| && b.order[i] != id
      ensures Settled(PutChannel(b, id, c, h), i, now)
    {
      SettledLater(b, i, clock, now);
    }
  }

  // A channel that is sound and listed as it is settles the board.
  lemma PutSettles(b: Board, id: string, c: Channel, h: History, dto: Dto, clock: nat, now: nat)
    requires SettledBut(b, id, clock) && id in b.order && clock <= now
    requires c.def == dto.def == b.defs[id] && Sound(c, h, now) && SameButError(dto, ToDto(c))
    ensures AllSettled(Put(b, id, c, h, dto), now)
  {
    hide Shaped, Sound, SameButError;
    ShapedGives(b, id);
    PutShaped(b, id, c, h, dto);
    PutCachedAt(b, id, dto);
    forall i | 0 <= i < |b.order|
      ensures Settled(Put(b, id, c, h, dto), i, now)
    {
      if b.order[i] != id {
        SettledLater(b, i, clock, now);
      }
    }
  }

  lemma ShapedGives(b: Board, id: string)
    requires Shaped(b) && id in b.order
    ensures id in b.channels && id in b.histories && id in b.defs && |b.cached| == |b.order|
    ensures b.channels[id].def == b.defs[id] && b.defs[id].id == id
  {
    assert b.order[Position(b.order, id)] == id;
  }

  lemma ShapedFresh(b: Board, i: nat)
    requires Shaped(b) && i < |b.order|
    ensures b.order[i] !in b.order[..i]
  {}

  lemma ShapedKeys(b: Board, id: string)
    requires Shaped(b)
    ensures id in b.defs <==> id in b.order
  {}

  lemma SettledGives(b: Board, id: string, clock: nat)
    requires AllSettled(b, clock) && id in b.order
    ensures id in b.channels && id in b.histories && Sound(b.channels[id], b.histories[id], clock)
    ensures id in b.defs && b.channels[id].def == b.defs[id] && b.defs[id].id == id
  {
    var p := Position(b.order, id);
    assert Settled(b, p, clock);
  }

  lemma SyncedShaped(b: Board)
    requires Shaped(b)
    ensures Shaped(Synced(b))
  {}

  lemma SyncedOk(b: Board, clock: nat)
    requires AllSettled(b, clock)
    ensures BoardOk(Synced(b), clock)
  {
    hide Shaped, Sound;
    SyncedShaped(b);
    forall i | 0 <= i < |b.order|
      ensures Settled(Synced(b), i, clock)
    {
      assert Settled(b, i, clock);
    }
  }

  lemma OkGives(b: Board, id: string, clock: nat)
    requires BoardOk(b, clock)
    ensures Shaped(b) && |b.cached| == |b.order|
    ensures id in b.channels <==> id in b.order
    ensures id in b.defs <==> id in b.order
    ensures id in b.order ==>
      && id in b.histories && b.channels[id].def == b.defs[id] && b.defs[id].id == id
      && SettledBut(b, id, clock) && Based(b.channels[id], b.histories[id], clock)
  {
    hide Based, LevelIsLatest;
    if id in b.order {
      SettledGives(b, id, clock);
    }
  }

  // A read settles a channel that was not.
  lemma ReadSettles(b: Board, id: string, clock: nat, now: nat, outcome: Outcome)
    requires SettledBut(b, id, clock) && id in b.order && clock <= now
    requires id in b.channels && id in b.histories && Based(b.channels[id], b.histories[id], clock)
    ensures BoardOk(Synced(Put(b, id, AfterRead(b.channels[id], now, outcome), HistoryRead(b.histories[id], now, outcome),
                               ReadDto(b.channels[id], outcome))), now)
    ensures Shaped(PutChannel(b, id, AfterRead(b.channels[id], now, outcome), HistoryRead(b.histories[id], now, outcome)))
    ensures ReadDto(b.channels[id], outcome).def.id == id
  {
    hide Shaped, Sound, Settled, AnyOn, Based, HistoryRead;
    ShapedGives(b, id);
    ReadSound(b.channels[id], b.histories[id], clock, now, outcome);
    var c, h := AfterRead(b.channels[id], now, outcome), HistoryRead(b.histories[id], now, outcome);
    PutSettles(b, id, c, h, ReadDto(b.channels[id], outcome), clock, now);
    PutChannelShaped(b, id, c, h);
    SyncedOk(Put(b, id, c, h, ReadDto(b.channels[id], outcome)), now);
  }

  lemma OfflineSettles(b: Board, id: string, clock: nat, message: string)
    requires BoardOk(b, clock) && id in b.order
    ensures id in b.channels && id in b.histories && |b.cached| == |b.order| && b.channels[id].def.id == id
    ensures var c := AfterOffline(b.channels[id], message);
      && Shaped(PutChannel(b, id, c, b.histories[id].(offline := true)))
      && BoardOk(Synced(Put(b, id, c, b.histories[id].(offline := true), ToDto(c))), clock)
  {
    hide Shaped, Sound, Settled, AnyOn, Position;
    SettledGives(b, id, clock);
    ShapedGives(b, id);
    var c, h := AfterOffline(b.channels[id], message), b.histories[id].(offline := true);
    OfflineSound(b.channels[id], b.histories[id], clock, message);
    PutSettles(b, id, c, h, ToDto(c), clock, clock);
    PutChannelShaped(b, id, c, h);
    SyncedOk(Put(b, id, c, h, ToDto(c)), clock);
  }

  lemma SameOn(order: seq<string>, channels: map<string, Channel>, id: string, c: Channel)
    requires id in channels && c.enabled == channels[id].enabled && c.def == channels[id].def
    ensures AnyOn(order, channels[id := c]) == AnyOn(order, channels)
  {
    var after := channels[id := c];
    assert forall i | 0 <= i < |order| && order[i] in channels ::
        after[order[i]].def == channels[order[i]].def && after[order[i]].enabled == channels[order[i]].enabled;
  }

  lemma ErrorSettles(b: Board, id: string, clock: nat, message: string)
    requires BoardOk(b, clock) && id in b.order
    ensures id in b.channels && id in b.histories && |b.cached| == |b.order| && b.channels[id].def.id == id
    ensures var c := AfterError(b.channels[id], message);
      && Shaped(PutChannel(b, id, c, b.histories[id]))
      && BoardOk(Put(b, id, c, b.histories[id], ToDto(c)), clock)
  {
    hide Shaped, Sound, Settled, AnyOn, Position;
    SettledGives(b, id, clock);
    ShapedGives(b, id);
    var c, h := AfterError(b.channels[id], message), b.histories[id];
    ErrorSound(b.channels[id], h, clock, message);
    PutSettles(b, id, c, h, ToDto(c), clock, clock);
    PutChannelShaped(b, id, c, h);
    SameOn(b.order, b.channels, id, c);
  }

  // Between a command and the read that follows it only the other channels are settled.
  lemma SwitchUnsettles(b: Board, id: string, clock: nat, now: nat)
    requires BoardOk(b, clock) && id in b.order && clock <= now
    ensures id in b.channels && id in b.histories
    ensures var c, h := AfterSwitchOn(b.channels[id], now), Touched(b.histories[id], SwitchedOn);
      SettledBut(PutChannel(b, id, c, h), id, now) && Based(c, h, now)
    ensures var c, h := AfterSwitchOff(b.channels[id], now), Touched(b.histories[id], SeenLow);
      SettledBut(PutChannel(b, id, c, h), id, now) && Based(c, h, now)
  {
    hide Shaped, Settled, AnyOn, LevelIsLatest, Based, Touched;
    SettledGives(b, id, clock);
    SwitchedSound(b.channels[id], b.histories[id], clock, now);
    PutChannelKeeps(b, id, AfterSwitchOn(b.channels[id], now), Touched(b.histories[id], SwitchedOn), clock, now);
    PutChannelKeeps(b, id, AfterSwitchOff(b.channels[id], now), Touched(b.histories[id], SeenLow), clock, now);
  }

  lemma PutTwice(b: Board, id: string, c: Channel, h: History, d: Channel, k: History, dto: Dto)
    requires id in b.order && |b.cached| == |b.order|
    ensures Put(PutChannel(b, id, c, h), id, d, k, dto) == Put(b, id, d, k, dto)
  {}

  // The level of every channel is that of the latest evidence delivered about it, unless the relay
  // has been marked offline since that evidence.
  lemma LevelIsThatOfLatest(b: Board, clock: nat, i: nat, k: nat)
    requires BoardOk(b, clock) && i < |b.order|
    requires b.order[i] in b.histories && Latest(b.histories[b.order[i]].evidence, k)
    ensures b.order[i] in b.channels
    ensures
      var c, h := b.channels[b.order[i]], b.histories[b.order[i]];
      if h.offline then !c.enabled && c.actual == Unknown
      else c.enabled == h.evidence[k].enabled && c.actual == h.evidence[k].actual
  {
    hide Sound, SameButError, Shaped;
    assert Settled(b, i, clock);
    LatestShown(b.channels[b.order[i]], b.histories[b.order[i]], clock, k);
  }

  // After a read the channel's entry in the list is the channel exactly, or all but its error text.
  lemma EntryExactIff(b: Board, id: string, now: nat, outcome: Outcome)
    requires Shaped(b) && id in b.order && id in b.channels && id in b.histories
    ensures |b.cached| == |b.order|
    ensures
      var after := Synced(Put(b, id, AfterRead(b.channels[id], now, outcome), HistoryRead(b.histories[id], now, outcome),
                              ReadDto(b.channels[id], outcome)));
      after.cached[Position(b.order, id)] == ToDto(after.channels[id])
      <==> outcome.Failure? || b.channels[id].lastError == ""
  {
    hide AnyOn, AfterRead, ReadDto;
    ReadListedExactly(b.channels[id], now, outcome);
  }

  // ---- a new service ----

  predicate SameKeys(b: Board) {
    b.defs.Keys == b.channels.Keys == b.histories.Keys == (set id | id in b.order)
  }

  predicate NewAt(b: Board, k: nat, def: Definition) {
    && k < |b.order| && k < |b.cached|
    && b.order[k] == def.id && def.id in b.defs && def.id in b.channels && def.id in b.histories
    && b.defs[def.id] == def && b.channels[def.id] == NewChannel(def)
    && b.histories[def.id] == History([], false, []) && b.cached[k] == ToDto(NewChannel(def))
  }

  predicate IsNew(definitions: seq<Definition>, b: Board) {
    && |b.order| == |b.cached| == |definitions| && SameKeys(b) && !b.active
    && forall k | 0 <= k < |definitions| :: NewAt(b, k, definitions[k])
  }

  function WithChannel(b: Board, def: Definition): Board {
    b.(order := b.order + [def.id], defs := b.defs[def.id := def],
       channels := b.channels[def.id := NewChannel(def)], histories := b.histories[def.id := History([], false, [])],
       cached := b.cached + [ToDto(NewChannel(def))])
  }

  lemma SameKeysSnoc(b: Board, def: Definition)
    requires SameKeys(b)
    ensures SameKeys(WithChannel(b, def))
  {
    assert (set id | id in b.order + [def.id]) == (set id | id in b.order) + {def.id};
  }

  lemma NewAtKept(b: Board, k: nat, old_: Definition, def: Definition)
    requires NewAt(b, k, old_) && old_.id != def.id
    ensures NewAt(WithChannel(b, def), k, old_)
  {}

  lemma IsNewSnoc(definitions: seq<Definition>, def: Definition, b: Board)
    requires IsNew(definitions, b) && forall k | 0 <= k < |definitions| :: definitions[k].id != def.id
    ensures IsNew(definitions + [def], WithChannel(b, def))
  {
    hide NewAt, SameKeys;
    SameKeysSnoc(b, def);
    forall k | 0 <= k < |definitions| + 1
      ensures NewAt(WithChannel(b, def), k, (definitions + [def])[k])
    {
      if k < |definitions| {
        NewAtKept(b, k, definitions[k], def);
      } else {
        NewAtLast(b, def);
      }
    }
  }

  lemma NewAtLast(b: Board, def: Definition)
    requires |b.order| == |b.cached|
    ensures NewAt(WithChannel(b, def), |b.order|, def)
  {}

  lemma NothingIsNew()
    ensures IsNew([], Board([], map[], map[], [], false, map[]))
  {}

  lemma IsNewGives(definitions: seq<Definition>, b: Board)
    requires IsNew(definitions, b)
    ensures |b.order| == |definitions|
    ensures forall i | 0 <= i < |definitions| ::
      b.order[i] == definitions[i].id && b.order[i] in b.channels && b.channels[b.order[i]] == NewChannel(definitions[i])
  {
    assert forall i | 0 <= i < |definitions| :: NewAt(b, i, definitions[i]);
  }

  lemma NewBoardOk(definitions: seq<Definition>, b: Board)
    requires IsNew(definitions, b)
    requires forall i, j | 0 <= i < j < |definitions| :: definitions[i].id != definitions[j].id
    ensures BoardOk(b, 0)
  {
    hide Sound;
    forall i | 0 <= i < |b.order|
      ensures b.order[i] == definitions[i].id && b.order[i] in b.channels && Settled(b, i, 0)
      ensures b.channels[b.order[i]] == NewChannel(definitions[i]) && b.defs[b.order[i]] == definitions[i]
      ensures b.cached[i] == ToDto(b.channels[b.order[i]])
    {
      assert NewAt(b, i, definitions[i]);
      NewSound(definitions[i], 0);
    }
  }
}
