// Looking at the channels one after the other: which are on, whether their levels are known, and
// what such a look changes. Models screenStrikeSnapshotWithPolicyLocked and the loop of
// ListChannels in internal/interference/service.go.
module Surveys {
  import opened Channels
  import opened Boards

  // The strike channels that are on, in the order given.
  function OnIds(ids: seq<string>, channels: map<string, Channel>): (on: seq<string>)
    ensures forall id :: id in on <==> id in ids && IsOn(channels, id)
  {
    if ids == [] then []
    else
      var rest, last := OnIds(ids[..|ids| - 1], channels), ids[|ids| - 1];
      if IsOn(channels, last) then rest + [last] else rest
  }

  predicate IsOn(channels: map<string, Channel>, id: string) {
    id in channels && !channels[id].def.reserved && channels[id].enabled
  }

  predicate AllKnown(ids: seq<string>, channels: map<string, Channel>) {
    forall i | 0 <= i < |ids| :: KnownAt(channels, ids[i])
  }

  // The level is known, or the channel takes no part in strikes.
  predicate KnownAt(channels: map<string, Channel>, id: string) {
    id in channels && !channels[id].def.reserved ==> channels[id].actual != Unknown
  }

  predicate SameAt(channels: map<string, Channel>, after: map<string, Channel>, id: string) {
    id in channels && id in after && after[id] == channels[id]
  }

  lemma {:induction false} OnIdsFrame(ids: seq<string>, channels: map<string, Channel>, after: map<string, Channel>)
    requires forall i | 0 <= i < |ids| :: SameAt(channels, after, ids[i])
    ensures OnIds(ids, after) == OnIds(ids, channels)
    ensures AllKnown(ids, after) == AllKnown(ids, channels)
  {
    if ids != [] {
      OnIdsFrame(ids[..|ids| - 1], channels, after);
      assert SameAt(channels, after, ids[|ids| - 1]);
    }
  }

  lemma OnIdsSnoc(ids: seq<string>, id: string, channels: map<string, Channel>)
    ensures OnIds(ids + [id], channels) == OnIds(ids, channels) + if IsOn(channels, id) then [id] else []
    ensures AllKnown(ids + [id], channels) <==> AllKnown(ids, channels) && KnownAt(channels, id)
  {
    assert (ids + [id])[..|ids|] == ids;
    assert (ids + [id])[|ids|] == id;
    assert forall i | 0 <= i < |ids| :: (ids + [id])[i] == ids[i];
  }

  lemma AnyOnIsOnIds(order: seq<string>, channels: map<string, Channel>)
    ensures AnyOn(order, channels) <==> OnIds(order, channels) != []
  {
    if OnIds(order, channels) != [] {
      assert OnIds(order, channels)[0] in order;
    }
    if AnyOn(order, channels) {
      var i :| 0 <= i < |order| && IsOn(channels, order[i]);
      assert order[i] in OnIds(order, channels);
    }
  }

  lemma OnAreStrikes(b: Board)
    requires Shaped(b)
    ensures forall i | 0 <= i < |OnIds(b.order, b.channels)| :: IsStrike(b.defs, OnIds(b.order, b.channels)[i])
  {
    var on := OnIds(b.order, b.channels);
    forall i | 0 <= i < |on|
      ensures IsStrike(b.defs, on[i])
    {
      assert on[i] in on;
      ShapedGives(b, on[i]);
    }
  }

  // When every level is known and no strike channel is on, all of them are low.
  lemma NoneOnAllLow(b: Board, clock: nat, id: string)
    requires BoardOk(b, clock) && OnIds(b.order, b.channels) == [] && AllKnown(b.order, b.channels)
    requires IsStrike(b.defs, id)
    ensures id in b.channels && b.channels[id].actual == Low
  {
    hide Shaped, SettledBut, LevelIsLatest;
    OkGives(b, id, clock);
    assert id !in OnIds(b.order, b.channels);
    assert KnownAt(b.channels, b.order[Position(b.order, id)]);
  }

  lemma NoneOnThoseLow(b: Board, clock: nat, ids: seq<string>)
    requires BoardOk(b, clock) && OnIds(b.order, b.channels) == [] && AllKnown(b.order, b.channels)
    requires forall id | id in ids :: IsStrike(b.defs, id)
    ensures forall id | id in ids :: id in b.channels && b.channels[id].actual == Low
  {
    hide BoardOk, OnIds, AllKnown, IsStrike;
    forall id | id in ids
      ensures id in b.channels && b.channels[id].actual == Low
    {
      NoneOnAllLow(b, clock, id);
    }
  }

  // `part` lists some entries of `ids`, those at `places`, in the same order.
  predicate PickedAt(ids: seq<string>, part: seq<string>, places: seq<nat>) {
    && |places| == |part|
    && (forall k | 0 <= k < |places| :: places[k] < |ids| && part[k] == ids[places[k]])
    && forall k, l | 0 <= k < l < |places| :: places[k] < places[l]
  }

  lemma PickedMore(ids: seq<string>, part: seq<string>, places: seq<nat>)
    requires ids != [] && PickedAt(ids[..|ids| - 1], part, places)
    ensures PickedAt(ids, part, places)
    ensures PickedAt(ids, part + [ids[|ids| - 1]], places + [|ids| - 1])
  {}

  // Channels that are on are listed in definition order, each place once.
  lemma {:induction false} OnIdsInOrder(ids: seq<string>, channels: map<string, Channel>) returns (places: seq<nat>)
    ensures PickedAt(ids, OnIds(ids, channels), places)
  {
    if ids == [] {
      places := [];
    } else {
      places := OnIdsInOrder(ids[..|ids| - 1], channels);
      PickedMore(ids, OnIds(ids[..|ids| - 1], channels), places);
      if IsOn(channels, ids[|ids| - 1]) {
        places := places + [|ids| - 1];
      }
    }
  }

  // So are selected ones.
  lemma {:induction false} SelectIdsInOrder(ids: seq<string>, defs: map<string, Definition>, wanted: set<string>)
    returns (places: seq<nat>)
    ensures PickedAt(ids, SelectIds(ids, defs, wanted), places)
  {
    if ids == [] {
      places := [];
    } else {
      places := SelectIdsInOrder(ids[..|ids| - 1], defs, wanted);
      PickedMore(ids, SelectIds(ids[..|ids| - 1], defs, wanted), places);
      if IsStrike(defs, ids[|ids| - 1]) && ids[|ids| - 1] in wanted {
        places := places + [|ids| - 1];
      }
    }
  }

  // The wanted strike channels, in the order given.
  function SelectIds(ids: seq<string>, defs: map<string, Definition>, wanted: set<string>): (selected: seq<string>)
    ensures forall id :: id in selected <==> id in ids && id in wanted && IsStrike(defs, id)
  {
    if ids == [] then []
    else
      var rest, last := SelectIds(ids[..|ids| - 1], defs, wanted), ids[|ids| - 1];
      if IsStrike(defs, last) && last in wanted then rest + [last] else rest
  }

  lemma SelectedAll(b: Board, wanted: set<string>)
    requires Shaped(b) && wanted != {}
    ensures
      var selected := SelectIds(b.order, b.defs, wanted);
      var left := wanted - set id | id in selected;
      (left == {} <==> forall id | id in wanted :: IsStrike(b.defs, id)) && (left == {} ==> selected != [])
  {
    var selected := SelectIds(b.order, b.defs, wanted);
    forall id | id in wanted
      ensures id in selected <==> IsStrike(b.defs, id)
    {
      ShapedKeys(b, id);
    }
    var left := wanted - set id | id in selected;
    forall id | id in wanted
      ensures id in left <==> !IsStrike(b.defs, id)
    {}
  }

  // A channel was taken to be offline, or else read once more.
  predicate Polled(c: Channel, h: History, h': History, marked: bool) {
    if marked then h' == h.(offline := true) && c.actual == Unknown && !c.enabled
    else
      && h.evidence < h'.evidence && |h'.evidence| == |h.evidence| + 1 && h'.evidence[|h.evidence|].read
      && !h'.offline && Shows(c, h'.evidence[|h.evidence|])
  }

  predicate PolledAt(b: Board, after: Board, id: string, marked: bool) {
    id in after.channels && id in b.histories && id in after.histories
    && Polled(after.channels[id], b.histories[id], after.histories[id], marked)
  }

  predicate Kept(b: Board, after: Board, id: string) {
    SameAt(b.channels, after.channels, id)
    && id in b.histories && id in after.histories && after.histories[id] == b.histories[id]
  }

  // Evidence about a channel is never taken back.
  predicate Grown(b: Board, after: Board, id: string) {
    id in b.histories && id in after.histories && b.histories[id].evidence <= after.histories[id].evidence
  }

  predicate Onward(b: Board, after: Board) {
    && after.order == b.order && after.defs == b.defs
    && forall i | 0 <= i < |b.order| :: Grown(b, after, b.order[i])
  }

  // Nothing about the channels changed, except possibly those of `ids`.
  predicate KeptBut(b: Board, after: Board, ids: set<string>) {
    && after.order == b.order && after.defs == b.defs
    && forall i | 0 <= i < |b.order| ::
         Grown(b, after, b.order[i]) && (b.order[i] !in ids ==> Kept(b, after, b.order[i]))
  }

  lemma KeptSelf(b: Board, ids: set<string>)
    requires Shaped(b)
    ensures KeptBut(b, b, ids) && Onward(b, b)
  {}

  lemma OkKept(b: Board, ids: set<string>, clock: nat)
    requires BoardOk(b, clock)
    ensures KeptBut(b, b, ids) && Onward(b, b)
  {
    hide AnyOn, Settled;
    KeptSelf(b, ids);
  }

  lemma KeptOthers(b: Board, after: Board, id: string)
    requires Shaped(b) && id in b.order && after.order == b.order && after.defs == b.defs
    requires id in after.channels && id in after.histories && Grown(b, after, id)
    requires after.channels == b.channels[id := after.channels[id]]
    requires after.histories == b.histories[id := after.histories[id]]
    ensures KeptBut(b, after, {id})
  {}

  // A command may have touched the channel before it was read.
  lemma KeptByRead(b: Board, after: Board, id: string, c: Channel, h: History, now: nat, outcome: Outcome, dto: Dto)
    requires Shaped(b) && id in b.order && |b.cached| == |b.order|
    requires id in b.histories && h.evidence == b.histories[id].evidence
    requires after == Synced(Put(b, id, AfterRead(c, now, outcome), HistoryRead(h, now, outcome), dto))
    ensures KeptBut(b, after, {id})
  {
    hide Shaped, KeptBut, AnyOn, Position;
    KeptOthers(b, after, id);
  }

  lemma KeptByError(b: Board, after: Board, id: string, c: Channel, dto: Dto)
    requires Shaped(b) && id in b.order && |b.cached| == |b.order| && id in b.histories
    requires after == Put(b, id, c, b.histories[id], dto)
    ensures KeptBut(b, after, {id})
  {
    hide Shaped, KeptBut, AnyOn, Position;
    KeptOthers(b, after, id);
  }

  lemma KeptByMessage(b: Board, after: Board, id: string)
    requires Shaped(b) && id in b.order && after.order == b.order && after.defs == b.defs
    requires id in after.channels && id in after.histories && id in b.histories
    requires b.histories[id].evidence <= after.histories[id].evidence
    requires after.channels == b.channels[id := after.channels[id]]
    requires after.histories == b.histories[id := after.histories[id]]
    ensures KeptBut(b, after, {id})
  {
    hide Shaped, KeptBut;
    KeptOthers(b, after, id);
  }

  lemma KeptWider(b: Board, after: Board, ids: set<string>, more: set<string>)
    requires KeptBut(b, after, ids) && ids <= more
    ensures KeptBut(b, after, more)
  {
    hide Grown, Kept;
  }

  lemma KeptOnward(b: Board, after: Board, ids: set<string>)
    requires KeptBut(b, after, ids)
    ensures Onward(b, after)
  {
    hide Grown, Kept;
  }

  lemma OnwardChain(b: Board, mid: Board, after: Board)
    requires Onward(b, mid) && Onward(mid, after)
    ensures Onward(b, after)
  {
    forall i | 0 <= i < |b.order|
      ensures Grown(b, after, b.order[i])
    {
      assert Grown(b, mid, b.order[i]) && Grown(mid, after, b.order[i]);
    }
  }

  lemma KeptChain(b: Board, mid: Board, after: Board, ids: set<string>)
    requires KeptBut(b, mid, ids) && KeptBut(mid, after, ids)
    ensures KeptBut(b, after, ids)
  {
    forall i | 0 <= i < |b.order|
      ensures Grown(b, after, b.order[i])
      ensures b.order[i] !in ids ==> Kept(b, after, b.order[i])
    {
      assert Grown(b, mid, b.order[i]) && Grown(mid, after, b.order[i]);
      assert b.order[i] !in ids ==> Kept(b, mid, b.order[i]);
    }
  }

  // Whether a look concerns a channel: every one does, or those of strikes do.
  predicate Concerns(defs: map<string, Definition>, id: string, every: bool) { every || IsStrike(defs, id) }

  // The first n channels have been looked at: those concerned polled, the ones in `marked` by
  // taking them to be offline; the others left alone.
  predicate Surveyed(b: Board, after: Board, n: nat, marked: set<string>, every: bool) {
    && after.order == b.order && after.defs == b.defs && n <= |b.order|
    && marked <= (set i | 0 <= i < n && Concerns(b.defs, b.order[i], every) :: b.order[i])
    && forall i | 0 <= i < |b.order| ::
         if i < n && Concerns(b.defs, b.order[i], every) then PolledAt(b, after, b.order[i], b.order[i] in marked)
         else Kept(b, after, b.order[i])
  }

  // What was polled has more evidence, or as much.
  lemma SurveyedOnward(b: Board, after: Board, n: nat, marked: set<string>, every: bool)
    requires Surveyed(b, after, n, marked, every)
    ensures Onward(b, after)
  {
    hide Concerns;
    forall i | 0 <= i < |b.order|
      ensures Grown(b, after, b.order[i])
    {
      if i < n && Concerns(b.defs, b.order[i], every) {
        assert PolledAt(b, after, b.order[i], b.order[i] in marked);
      } else {
        assert Kept(b, after, b.order[i]);
      }
    }
  }

  lemma TakeSnoc<T>(s: seq<T>, n: nat)
    requires n < |s|
    ensures s[..n + 1] == s[..n] + [s[n]]
  {}

  lemma ReadPolls(b: Board, after: Board, id: string, now: nat, outcome: Outcome)
    requires Shaped(b) && id in b.order && id in b.channels && id in b.histories && |b.cached| == |b.order|
    requires after == Synced(Put(b, id, AfterRead(b.channels[id], now, outcome), HistoryRead(b.histories[id], now, outcome),
                                 ReadDto(b.channels[id], outcome)))
    ensures PolledAt(b, after, id, false) && KeptBut(b, after, {id})
    ensures IsStrike(b.defs, id) ==> (IsOn(after.channels, id) <==> ReadDto(b.channels[id], outcome).enabled)
    ensures IsStrike(b.defs, id) ==> (KnownAt(after.channels, id) <==> outcome.Value?)
  {
    hide Shaped, KeptBut, AnyOn, Position;
    ShapedGives(b, id);
    KeptByRead(b, after, id, b.channels[id], b.histories[id], now, outcome, ReadDto(b.channels[id], outcome));
  }

  lemma OfflinePolls(b: Board, after: Board, id: string, message: string, dto: Dto)
    requires Shaped(b) && id in b.order && id in b.channels && id in b.histories && |b.cached| == |b.order|
    requires after == Synced(Put(b, id, AfterOffline(b.channels[id], message), b.histories[id].(offline := true), dto))
    ensures PolledAt(b, after, id, true) && KeptBut(b, after, {id})
    ensures IsStrike(b.defs, id) ==> !IsOn(after.channels, id) && !KnownAt(after.channels, id)
  {
    hide Shaped, KeptBut, AnyOn, Position;
    ShapedGives(b, id);
    KeptOthers(b, after, id);
  }

  lemma SurveyStart(b: Board, every: bool)
    requires Shaped(b)
    ensures Surveyed(b, b, 0, {}, every) && NoRepeats(b.order)
    ensures OnIds(b.order[..0], b.channels) == [] && AllKnown(b.order[..0], b.channels)
  {
    hide Polled, IsStrike;
    forall i | 0 <= i < |b.order|
      ensures Kept(b, b, b.order[i])
    {
      ShapedGives(b, b.order[i]);
    }
  }

  lemma SurveySkip(b: Board, after: Board, n: nat, marked: set<string>)
    requires Surveyed(b, after, n, marked, false) && n < |b.order| && !IsStrike(b.defs, b.order[n])
    requires b.order[n] in b.defs && b.order[n] in after.channels
    requires after.channels[b.order[n]].def == b.defs[b.order[n]]
    ensures Surveyed(b, after, n + 1, marked, false)
    ensures OnIds(b.order[..n + 1], after.channels) == OnIds(b.order[..n], after.channels)
    ensures AllKnown(b.order[..n + 1], after.channels) == AllKnown(b.order[..n], after.channels)
  {
    hide PolledAt, Kept, OnIds, AllKnown;
    TakeSnoc(b.order, n);
    OnIdsSnoc(b.order[..n], b.order[n], after.channels);
  }

  lemma SurveyStep(b: Board, mid: Board, after: Board, n: nat, marked: set<string>, more: set<string>, every: bool)
    requires Surveyed(b, mid, n, marked, every) && n < |b.order| && NoRepeats(b.order)
    requires KeptBut(mid, after, {b.order[n]}) && Concerns(b.defs, b.order[n], every)
    requires more == marked || more == marked + {b.order[n]}
    requires PolledAt(mid, after, b.order[n], b.order[n] in more)
    ensures b.order[n] !in marked && Surveyed(b, after, n + 1, more, every)
    ensures OnIds(b.order[..n + 1], after.channels)
         == OnIds(b.order[..n], mid.channels) + if IsOn(after.channels, b.order[n]) then [b.order[n]] else []
    ensures AllKnown(b.order[..n + 1], after.channels)
         == (AllKnown(b.order[..n], mid.channels) && KnownAt(after.channels, b.order[n]))
  {
    hide Polled, Concerns, OnIds, AllKnown, KnownAt, IsOn, Grown;
    TakeSnoc(b.order, n);
    OnIdsSnoc(b.order[..n], b.order[n], after.channels);
    assert forall i | 0 <= i < |b.order| && i != n :: b.order[i] != b.order[n];
    assert Kept(b, mid, b.order[n]);
    forall i | 0 <= i < |b.order| && i != n
      ensures Kept(mid, after, b.order[i])
    {}
    OnIdsFrame(b.order[..n], mid.channels, after.channels);
  }

  // A channel not looked at yet is not marked, and no other has its name.
  lemma NotYetMarked(b: Board, after: Board, n: nat, marked: set<string>, every: bool)
    requires Surveyed(b, after, n, marked, every) && n < |b.order| && NoRepeats(b.order)
    ensures b.order[n] !in marked && forall k | 0 <= k < |b.order| && k != n :: b.order[k] != b.order[n]
  {
    hide PolledAt, Kept, Concerns;
  }

  // ---- a look as it can be told from later ----

  // How often the relay was found offline.
  function Found(looks: seq<bool>): nat {
    if looks == [] then 0 else Found(looks[..|looks| - 1]) + if looks[|looks| - 1] then 1 else 0
  }

  lemma FoundSnoc(looks: seq<bool>, offline: bool)
    ensures Found(looks + [offline]) == Found(looks) + if offline then 1 else 0
  {
    assert (looks + [offline])[..|looks|] == looks;
  }

  // From board b a look at every strike channel gave `seen`, and things went on from there to
  // `after`. No more channels were taken to be offline than the relay was found offline, so the
  // others have been read: their new evidence is still there.
  ghost predicate Looked(b: Board, seen: Board, after: Board, looks: seq<bool>, later: seq<bool>, clock: nat) {
    exists marked ::
      && Surveyed(b, seen, |b.order|, marked, false) && Found(looks) + |marked| <= Found(later)
      && Onward(seen, after) && BoardOk(seen, clock)
  }

  lemma LookedNow(b: Board, seen: Board, looks: seq<bool>, later: seq<bool>, clock: nat, marked: set<string>)
    requires Surveyed(b, seen, |b.order|, marked, false) && Found(looks) + |marked| <= Found(later)
    requires BoardOk(seen, clock)
    ensures Looked(b, seen, seen, looks, later, clock)
  {
    hide Surveyed, BoardOk, Onward, Found;
    OkKept(seen, {}, clock);
  }

  lemma LookedLater(b: Board, seen: Board, mid: Board, after: Board, looks: seq<bool>, later: seq<bool>, last: seq<bool>,
                    clock: nat, now: nat)
    requires Looked(b, seen, mid, looks, later, clock) && Onward(mid, after) && Found(later) <= Found(last)
    requires clock <= now
    ensures Looked(b, seen, after, looks, last, now)
  {
    hide Surveyed, BoardOk, Onward, Found;
    OnwardAnd(seen, mid, after);
    var marked :| Surveyed(b, seen, |b.order|, marked, false) && Found(looks) + |marked| <= Found(later)
      && Onward(seen, mid) && BoardOk(seen, clock);
    BoardOkLater(seen, clock, now);
  }

  lemma OnwardAnd(b: Board, mid: Board, after: Board)
    requires Onward(mid, after)
    ensures Onward(b, mid) ==> Onward(b, after)
  {
    hide Onward;
    if Onward(b, mid) {
      OnwardChain(b, mid, after);
    }
  }

  lemma LookedFrom(b: Board, seen: Board, after: Board, looks: seq<bool>, same: seq<bool>, later: seq<bool>, clock: nat)
    requires Looked(b, seen, after, looks, later, clock) && Found(same) == Found(looks)
    ensures Looked(b, seen, after, same, later, clock)
  {
    hide Surveyed, BoardOk, Onward, Found;
  }
}
