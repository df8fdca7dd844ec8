// The reports of the interference service: at most one of the platform, at most one external per
// channel, and the log of calls to the report store that brought them about.
// Models createRunningReportLocked, finishActiveReportLocked of internal/interference/service.go
// and startExternalReportLocked, finishExternalReportLocked of external.go.
module Reports {
  import opened Bytes

  datatype Platform = Platform(id: nat, channelIds: seq<string>, startedAt: nat, seconds: int)

  datatype External = External(id: nat, startedAt: nat)

  datatype Ending = Completed | Abnormal

  datatype Call =
    | CreatePlatform(id: nat)
    // `released`: not under software control; `owned`: listed by the running platform report
    | CreateExternal(id: nat, channel: string, released: bool, owned: bool)
    | CreateRefused                     // CreateRunning of a platform report failed
    | ExternalRefused(channel: string)  // CreateRunning of an external report failed
    | CreateFailed                      // Create of a report that never ran
    | EndPlatform(id: nat, how: Ending)
    | EndExternal(id: nat, channel: string, how: Ending, stored: bool)

  datatype Ledger = Ledger(active: Option<Platform>, externals: map<string, External>, calls: seq<Call>, nextId: nat)

  // ---- what a log of calls says, read on its own ----

  function RunningPlatforms(calls: seq<Call>): set<nat> {
    if calls == [] then {}
    else
      var before, last := RunningPlatforms(calls[..|calls| - 1]), calls[|calls| - 1];
      match last
      case CreatePlatform(id) => before + {id}
      case EndPlatform(id, _) => before - {id}
      case _ => before
  }

  function OpenExternals(calls: seq<Call>): set<(string, nat)> {
    if calls == [] then {}
    else
      var before, last := OpenExternals(calls[..|calls| - 1]), calls[|calls| - 1];
      match last
      case CreateExternal(id, channel, _, _) => before + {(channel, id)}
      case EndExternal(id, channel, _, stored) => if stored then before - {(channel, id)} else before
      case _ => before
  }

  // The platform report ended by a call, if any; likewise for external reports stored as ended.
  function EndedBy(call: Call): Option<nat> {
    match call
    case EndPlatform(id, _) => Some(id)
    case EndExternal(id, _, _, true) => Some(id)
    case _ => None
  }

  function CallId(call: Call): nat {
    match call
    case CreatePlatform(id) => id
    case CreateExternal(id, _, _, _) => id
    case EndPlatform(id, _) => id
    case EndExternal(id, _, _, _) => id
    case _ => 0
  }

  // A report that ran is over: the platform's, or an external one if the store took it.
  predicate Ends(call: Call) { call.EndPlatform? || (call.EndExternal? && call.stored) }

  predicate OpenedRightly(call: Call) { call.CreateExternal? ==> call.released && !call.owned }

  // The log ends with the platform report the service holds as the only one running, and with its
  // external reports as the open ones.
  ghost predicate LogAgrees(l: Ledger) {
    && RunningPlatforms(l.calls) == (if l.active.Some? then {l.active.value.id} else {})
    && forall ch, id :: (ch, id) in OpenExternals(l.calls) <==> ch in l.externals && l.externals[ch].id == id
  }

  ghost predicate LogOk(calls: seq<Call>, nextId: nat) {
    && (forall i | 0 <= i < |calls| :: OpenedRightly(calls[i]) && CallId(calls[i]) <= nextId)
    && forall i, j | 0 <= i < j < |calls| && EndedBy(calls[i]).Some? :: EndedBy(calls[i]) != EndedBy(calls[j])
  }

  // The reports held have identifiers of their own, and none has been ended.
  ghost predicate HeldOk(l: Ledger) {
    && (l.active.Some? ==> Unended(l.calls, l.active.value.id) && l.active.value.id <= l.nextId)
    && (forall ch | ch in l.externals :: Unended(l.calls, l.externals[ch].id) && l.externals[ch].id <= l.nextId)
    && (forall ch | ch in l.externals && l.active.Some? :: l.externals[ch].id != l.active.value.id)
    && forall ch, other | ch in l.externals && other in l.externals && ch != other ::
         l.externals[ch].id != l.externals[other].id
  }

  ghost predicate LedgerOk(l: Ledger) { LogAgrees(l) && LogOk(l.calls, l.nextId) && HeldOk(l) }

  ghost predicate Unended(calls: seq<Call>, id: nat) {
    id > 0 && forall i | 0 <= i < |calls| :: EndedBy(calls[i]) != Some(id)
  }

  predicate Owns(l: Ledger, channel: string) { l.active.Some? && channel in l.active.value.channelIds }

  // ---- the operations ----

  function Logged(l: Ledger, call: Call): Ledger { l.(calls := l.calls + [call]) }

  // The store hands out a fresh identifier, larger than any before.
  function WithPlatform(l: Ledger, id: nat, p: Platform): Ledger
  {
    Logged(l, CreatePlatform(id)).(active := Some(p), nextId := id)
  }

  function WithoutPlatform(l: Ledger, how: Ending): Ledger
    requires l.active.Some?
  {
    Logged(l, EndPlatform(l.active.value.id, how)).(active := None)
  }

  function WithExternal(l: Ledger, id: nat, channel: string, at: nat, released: bool): Ledger {
    Logged(l, CreateExternal(id, channel, released, Owns(l, channel))).(
      externals := l.externals[channel := External(id, at)], nextId := id)
  }

  function EndedExternal(l: Ledger, channel: string, how: Ending, stored: bool): Ledger
    requires channel in l.externals
  {
    var t := Logged(l, EndExternal(l.externals[channel].id, channel, how, stored));
    if stored then t.(externals := l.externals - {channel}) else t
  }

  // Ending the open external report of a channel: nothing happens without a store, and the report
  // stays open when the store fails.
  predicate Finishes(before: Ledger, after: Ledger, hasStore: bool, channel: string, how: Ending) {
    if channel in before.externals && hasStore
    then after == EndedExternal(before, channel, how, true) || after == EndedExternal(before, channel, how, false)
    else after == before
  }

  // The same tried twice: at an acknowledged switch-off, and when the read after it answers low.
  ghost predicate FinishesTwice(before: Ledger, after: Ledger, hasStore: bool, channel: string, low: bool) {
    exists mid :: Finishes(before, mid, hasStore, channel, Completed)
      && if low then Finishes(mid, after, hasStore, channel, Completed) else after == mid
  }

  // Every open external report outside `left` was refused its end by the store, in a call made
  // after the first n.
  predicate AllEnded(l: Ledger, left: set<string>, n: nat) {
    n <= |l.calls|
    && forall id | id in l.externals && id !in left ::
         EndExternal(l.externals[id].id, id, Abnormal, false) in l.calls[n..]
  }

  lemma NoneEnded(l: Ledger, n: nat)
    requires n <= |l.calls|
    ensures AllEnded(l, l.externals.Keys, n)
  {}

  lemma EndedStep(l: Ledger, after: Ledger, left: set<string>, id: string, n: nat)
    requires AllEnded(l, left, n) && id in left && Finishes(l, after, true, id, Abnormal)
    ensures AllEnded(after, left - {id}, n)
  {
    assert l.calls <= after.calls;
    if after != l {
      assert after.calls[n..][|l.calls| - n] == after.calls[|l.calls|];
      assert after.calls[n..][..|l.calls| - n] == l.calls[n..];
    }
    forall other | other in after.externals && other !in left - {id}
      ensures EndExternal(after.externals[other].id, other, Abnormal, false) in after.calls[n..]
    {
      if other != id {
        var call := EndExternal(l.externals[other].id, other, Abnormal, false);
        var k :| 0 <= k < |l.calls[n..]| && l.calls[n..][k] == call;
        assert after.calls[n..][k] == call;
      }
    }
  }

  lemma EndedSince(l: Ledger, n: nat, m: nat)
    requires AllEnded(l, {}, n) && m <= n
    ensures AllEnded(l, {}, m)
  {
    assert l.calls[m..][n - m..] == l.calls[n..];
  }

  // Opening one: nothing happens without a store, while one is open, or while the running platform
  // report lists the channel; and the store may refuse.
  predicate Starts(before: Ledger, after: Ledger, hasStore: bool, channel: string, at: nat) {
    if hasStore && channel !in before.externals && !Owns(before, channel)
    then
      || after == Logged(before, ExternalRefused(channel))
      || (after.nextId > before.nextId && after == WithExternal(before, after.nextId, channel, at, true))
    else after == before
  }

  lemma LoggedFolds(l: Ledger, call: Call)
    ensures (l.calls + [call])[..|l.calls|] == l.calls
  {}

  // A further call keeps the log in order if it ends only what had not been ended.
  lemma LogSnoc(calls: seq<Call>, nextId: nat, call: Call, next: nat)
    requires LogOk(calls, nextId) && nextId <= next && OpenedRightly(call) && CallId(call) <= next
    requires EndedBy(call).Some? ==> Unended(calls, EndedBy(call).value)
    ensures LogOk(calls + [call], next)
  {
    assert forall i | 0 <= i < |calls| :: (calls + [call])[i] == calls[i];
  }

  lemma UnendedSnoc(calls: seq<Call>, call: Call, id: nat)
    requires Unended(calls, id) && EndedBy(call) != Some(id)
    ensures Unended(calls + [call], id)
  {}

  // No call can have ended a report whose identifier is still to be handed out.
  lemma UnendedFresh(calls: seq<Call>, nextId: nat, id: nat)
    requires LogOk(calls, nextId) && id > nextId
    ensures Unended(calls, id)
  {
    forall i | 0 <= i < |calls|
      ensures EndedBy(calls[i]) != Some(id)
    {
      assert CallId(calls[i]) <= nextId;
    }
  }

  lemma HeldSnoc(l: Ledger, call: Call)
    requires HeldOk(l)
    requires l.active.Some? ==> EndedBy(call) != Some(l.active.value.id)
    requires forall ch | ch in l.externals :: EndedBy(call) != Some(l.externals[ch].id)
    ensures HeldOk(Logged(l, call))
  {
    hide Unended;
    if l.active.Some? {
      UnendedSnoc(l.calls, call, l.active.value.id);
    }
    forall ch | ch in l.externals
      ensures Unended(l.calls + [call], l.externals[ch].id)
    {
      UnendedSnoc(l.calls, call, l.externals[ch].id);
    }
  }

  lemma NewLedgerOk()
    ensures LedgerOk(Ledger(None, map[], [], 0))
  {}

  lemma RefusalOk(l: Ledger, call: Call)
    requires LedgerOk(l) && (call.CreateRefused? || call.ExternalRefused? || call.CreateFailed?)
    ensures LedgerOk(Logged(l, call))
  {
    hide LogOk, HeldOk;
    LoggedFolds(l, call);
    LogSnoc(l.calls, l.nextId, call, l.nextId);
    HeldSnoc(l, call);
  }

  // A platform report may be created only while none is running: none is overwritten or lost.
  lemma PlatformOk(l: Ledger, id: nat, p: Platform)
    requires LedgerOk(l) && l.active.None? && id > l.nextId && p.id == id
    ensures LedgerOk(WithPlatform(l, id, p))
  {
    hide LogOk, Unended;
    LoggedFolds(l, CreatePlatform(id));
    LogSnoc(l.calls, l.nextId, CreatePlatform(id), id);
    HeldSnoc(l, CreatePlatform(id));
    UnendedFresh(l.calls, l.nextId, id);
    UnendedSnoc(l.calls, CreatePlatform(id), id);
  }

  lemma PlatformEndOk(l: Ledger, how: Ending)
    requires LedgerOk(l) && l.active.Some?
    ensures LedgerOk(WithoutPlatform(l, how))
  {
    hide LogOk, Unended;
    var call := EndPlatform(l.active.value.id, how);
    LoggedFolds(l, call);
    LogSnoc(l.calls, l.nextId, call, l.nextId);
    HeldSnoc(l.(active := None), call);
  }

  lemma ExternalOk(l: Ledger, id: nat, channel: string, at: nat)
    requires LedgerOk(l) && channel !in l.externals && !Owns(l, channel) && id > l.nextId
    ensures LedgerOk(WithExternal(l, id, channel, at, true))
  {
    hide LogOk, Unended;
    var call := CreateExternal(id, channel, true, false);
    LoggedFolds(l, call);
    LogSnoc(l.calls, l.nextId, call, id);
    HeldSnoc(l, call);
    UnendedFresh(l.calls, l.nextId, id);
    UnendedSnoc(l.calls, call, id);
  }

  // The store failed: the report stays open and may be ended again.
  lemma ExternalEndFailedOk(l: Ledger, channel: string, how: Ending)
    requires LedgerOk(l) && channel in l.externals
    ensures LedgerOk(EndedExternal(l, channel, how, false))
  {
    hide LogOk, Unended, HeldOk;
    var call := EndExternal(l.externals[channel].id, channel, how, false);
    LoggedFolds(l, call);
    HeldBounded(l, channel);
    LogSnoc(l.calls, l.nextId, call, l.nextId);
    HeldSnoc(l, call);
  }

  lemma HeldBounded(l: Ledger, channel: string)
    requires HeldOk(l) && channel in l.externals
    ensures l.externals[channel].id <= l.nextId && Unended(l.calls, l.externals[channel].id)
    ensures HeldOk(l.(externals := l.externals - {channel}))
    ensures forall other | other in l.externals && other != channel :: l.externals[other].id != l.externals[channel].id
    ensures l.active.Some? ==> l.active.value.id != l.externals[channel].id
  {
    hide Unended;
  }

  lemma ExternalEndStoredOk(l: Ledger, channel: string, how: Ending)
    requires LedgerOk(l) && channel in l.externals
    ensures LedgerOk(EndedExternal(l, channel, how, true))
  {
    hide LogOk, Unended, HeldOk;
    var call := EndExternal(l.externals[channel].id, channel, how, true);
    LoggedFolds(l, call);
    HeldBounded(l, channel);
    LogSnoc(l.calls, l.nextId, call, l.nextId);
    HeldSnoc(l.(externals := l.externals - {channel}), call);
  }

  lemma ExternalEndOk(l: Ledger, channel: string, how: Ending, stored: bool)
    requires LedgerOk(l) && channel in l.externals
    ensures LedgerOk(EndedExternal(l, channel, how, stored))
  {
    hide LedgerOk, EndedExternal;
    if stored {
      ExternalEndStoredOk(l, channel, how);
    } else {
      ExternalEndFailedOk(l, channel, how);
    }
  }

  // What the log of store calls shows whenever the ledger is in order: at most one platform report
  // running, the one the service holds; at most one open external report per channel; no report
  // ended twice; every external one opened while software did not control the channel and the
  // running platform report did not list it.
  lemma LogShowsOrder(l: Ledger)
    requires LedgerOk(l)
    ensures |RunningPlatforms(l.calls)| <= 1
    ensures forall id | id in RunningPlatforms(l.calls) :: l.active.Some? && l.active.value.id == id
    ensures forall ch, id, other | (ch, id) in OpenExternals(l.calls) && (ch, other) in OpenExternals(l.calls) :: id == other
    ensures forall i, j | 0 <= i < j < |l.calls| && Ends(l.calls[i]) && Ends(l.calls[j]) :: l.calls[i].id != l.calls[j].id
    ensures forall i | 0 <= i < |l.calls| && l.calls[i].CreateExternal? :: l.calls[i].released && !l.calls[i].owned
  {
    assert forall i | 0 <= i < |l.calls| :: OpenedRightly(l.calls[i]);
    assert forall i | 0 <= i < |l.calls| && Ends(l.calls[i]) :: EndedBy(l.calls[i]) == Some(l.calls[i].id);
  }
}
