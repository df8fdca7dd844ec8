// The single FPV video session: opened by one viewer, stopped by its handler, by a token, or by
// shutdown, in any interleaving. fpvVideoMu guards the fields for an instant; fpvVideoStopMu is
// held through a whole stop, device commands included. Models the session functions of
// internal/httpapi/server.go.
module VideoSession {
  import opened Bytes

  // What a session is opened with: frequency, token, target and recording.
  datatype Info = Info(frequency: int, token: string, startedAt: nat, target: string, recordId: string, recordFiles: string)

  datatype Snapshot = Snapshot(id: nat, info: Info)

  // The fields under fpvVideoMu; id 0 means that no session is active.
  datatype Fields = Fields(active: Snapshot, nextId: nat)

  const NO_INFO := Info(0, "", 0, "", "", "")

  function Opened(f: Fields, info: Info): Fields
    requires f.active.id == 0
  {
    Fields(Snapshot(f.nextId + 1, info), f.nextId + 1)
  }

  function Finished(f: Fields): Fields { f.(active := Snapshot(0, NO_INFO)) }

  datatype Stop = ByHandler(id: nat, reset: bool, force: bool) | ByToken(token: string) | Shutdown

  predicate Finds(f: Fields, stop: Stop) {
    match stop
    case ByHandler(id, _, _) => id != 0 && f.active.id == id
    case ByToken(token) => token != "" && f.active.id != 0 && f.active.info.token == token
    case Shutdown => f.active.id != 0
  }

  datatype Record = Record(snapshot: Snapshot, failed: bool)

  datatype Answer = NotActive | Stopped | DeviceFailed

  class Sessions {
    var activeSession: nat
    var activeInfo: Info
    var nextSessionId: nat

    // Every record written.
    ghost var records: seq<Record>

    ghost function View(): Fields
      reads `activeSession, `activeInfo, `nextSessionId
    {
      Fields(Snapshot(activeSession, activeInfo), nextSessionId)
    }

    constructor ()
      ensures View() == Fields(Snapshot(0, Info(0, "", 0, "", "", "")), 0) && records == []
    {
      activeSession, activeInfo, nextSessionId, records := 0, NO_INFO, 0, [];
    }

    // The session identifier and token, unless someone is viewing already.
    method TryBegin(info: Info) returns (session: Option<nat>)
      modifies `activeSession, `activeInfo, `nextSessionId
      ensures session.Some? <==> old(activeSession) == 0
      ensures session.Some? ==> View() == Opened(old(View()), info) && session.value == activeSession
      ensures session.None? ==> View() == old(View())
      ensures session.Some? ==> activeSession == nextSessionId == old(nextSessionId) + 1 && activeInfo == info
    {
      if activeSession != 0 {
        return None;
      }
      nextSessionId := nextSessionId + 1;
      activeSession := nextSessionId;
      activeInfo := info;
      return Some(nextSessionId);
    }

    method TakeSnapshot(stop: Stop) returns (snapshot: Option<Snapshot>)
      ensures snapshot == if Finds(View(), stop) then Some(View().active) else None
      ensures snapshot.Some? ==> activeSession != 0 && snapshot.value == Snapshot(activeSession, activeInfo)
      ensures stop.ByHandler? ==> (snapshot.Some? <==> activeSession != 0 && activeSession == stop.id)
      ensures stop.ByToken? ==> (snapshot.Some? <==> activeSession != 0 && activeInfo.token == stop.token && stop.token != "")
      ensures stop.Shutdown? ==> (snapshot.Some? <==> activeSession != 0)
    {
      match stop {
        case ByHandler(id, _, _) =>
          if id == 0 || activeSession != id {
            return None;
          }
        case ByToken(token) =>
          if token == "" || activeSession == 0 || activeInfo.token != token {
            return None;
          }
        case Shutdown =>
          if activeSession == 0 {
            return None;
          }
      }
      return Some(Snapshot(activeSession, activeInfo));
    }

    method Finish(id: nat) returns (ok: bool)
      modifies `activeSession, `activeInfo
      ensures ok <==> old(activeSession) == id
      ensures View() == if ok then Finished(old(View())) else old(View())
      ensures ok ==> activeSession == 0 && activeInfo == Info(0, "", 0, "", "", "")
    {
      if activeSession != id {
        return false;
      }
      activeSession := 0;
      activeInfo := NO_INFO;
      return true;
    }

    // releaseFPVVideoSessionAfterStop
    method Release(snapshot: Snapshot, failed: bool)
      modifies `activeSession, `activeInfo, `records
      ensures if old(activeSession) == snapshot.id
              then activeSession == 0 && activeInfo == NO_INFO && records == old(records) + [Record(snapshot, failed)]
              else View() == old(View()) && records == old(records)
    {
      var ok := Finish(snapshot.id);
      if ok {
        records := records + [Record(snapshot, failed)];
      }
    }

    // stopFPVVideoSessionByID, stopFPVVideoSessionByToken and stopActiveFPVVideoSession, with no one
    // else at the fields; `deviceOk` is the answer of the device, if it is asked. The session goes
    // and is recorded, with the failure if there was one; only a handler's failed reset keeps a
    // session that has no recording, unless the handler insists.
    method StopSession(stop: Stop, deviceOk: bool) returns (answer: Answer)
      modifies `activeSession, `activeInfo, `records
      ensures !Meant(stop, old(activeSession), old(activeInfo)) ==>
        View() == old(View()) && records == old(records) && answer == if stop.Shutdown? then Stopped else NotActive
      ensures Meant(stop, old(activeSession), old(activeInfo)) ==>
        var failed := !deviceOk && (stop.ByHandler? ==> stop.reset);
        && (answer == if failed then DeviceFailed else Stopped)
        && if failed && stop.ByHandler? && !stop.force && old(activeInfo).recordId == ""
           then View() == old(View()) && records == old(records)
           else activeSession == 0 && records == old(records) + [Record(Snapshot(old(activeSession), old(activeInfo)), failed)]
    {
      var found := TakeSnapshot(stop);
      if found.None? {
        return if stop.Shutdown? then Stopped else NotActive;
      }
      var snapshot := found.value;
      match stop {
        case ByHandler(_, reset, force) =>
          if reset && !deviceOk {
            if force || snapshot.info.recordId != "" {
              Release(snapshot, true);
            }
            return DeviceFailed;
          }
        case ByToken(_) =>
          if !deviceOk {
            Release(snapshot, true);
            return DeviceFailed;
          }
        case Shutdown =>
          if !deviceOk {
            Release(snapshot, true);
            return DeviceFailed;
          }
      }
      Release(snapshot, false);
      return Stopped;
    }
  }

  // The session a stop is for: the handler's own, the one with the token, or any.
  predicate Meant(stop: Stop, session: nat, info: Info) {
    && session != 0
    && (stop.ByHandler? ==> session == stop.id)
    && (stop.ByToken? ==> info.token == stop.token && stop.token != "")
  }

  // ---- interleavings ----

  // The holder of fpvVideoStopMu.
  datatype Stopper =
    | Nobody
    | Locked(stop: Stop)
    | Stopping(stop: Stop, snapshot: Snapshot)          // session found, device commands running
    | Releasing(snapshot: Snapshot, failed: bool)
    | Recording(snapshot: Snapshot, failed: bool)       // released, record not yet written

  datatype State = State(
    fields: Fields,
    stopper: Stopper,
    // histories
    begun: seq<Info>,          // session number n was opened with begun[n - 1]
    released: seq<nat>,
    records: seq<Record>)

  datatype Step =
    | Begin(info: Info)
    | LockStop(stop: Stop)
    | Find
    | DeviceStopped(ok: bool)
    | Release
    | Persist

  // A failed stop releases the session anyway, except for a ready session without recording whose
  // handler ends.
  predicate KeepsSession(stop: Stop, snapshot: Snapshot) {
    stop.ByHandler? && !stop.force && snapshot.info.recordId == ""
  }

  predicate Next(s: State, step: Step, s': State) {
    match step
    case Begin(info) =>
      s' == if s.fields.active.id != 0 then s
            else s.(fields := Opened(s.fields, info), begun := s.begun + [info])
    case LockStop(stop) => s.stopper.Nobody? && s' == s.(stopper := Locked(stop))
    case Find =>
      && s.stopper.Locked?
      && s' == s.(stopper := if Finds(s.fields, s.stopper.stop) then Stopping(s.stopper.stop, s.fields.active) else Nobody)
    case DeviceStopped(ok) =>
      && s.stopper.Stopping?
      && var stop, snapshot := s.stopper.stop, s.stopper.snapshot;
         s' == s.(stopper :=
           if stop.ByHandler? && !stop.reset then Releasing(snapshot, false)
           else if !ok && KeepsSession(stop, snapshot) then Nobody
           else Releasing(snapshot, !ok))
    case Release =>
      && s.stopper.Releasing?
      && s' == if s.fields.active.id != s.stopper.snapshot.id then s.(stopper := Nobody)
               else s.(fields := Finished(s.fields), stopper := Recording(s.stopper.snapshot, s.stopper.failed),
                       released := s.released + [s.stopper.snapshot.id])
    case Persist =>
      && s.stopper.Recording?
      && s' == s.(stopper := Nobody, records := s.records + [Record(s.stopper.snapshot, s.stopper.failed)])
  }

  predicate Init(s: State) {
    s == State(Fields(Snapshot(0, NO_INFO), 0), Nobody, [], [], [])
  }

  predicate Registered(s: State, snapshot: Snapshot) {
    0 < snapshot.id <= |s.begun| && snapshot.info == s.begun[snapshot.id - 1]
  }

  // Sessions are released one by one in the order they were opened; all but the active one have
  // been, and each released one is recorded, the last possibly in a moment.
  predicate Invariant(s: State) {
    && s.fields.nextId == |s.begun|
    && |s.released| == |s.begun| - (if s.fields.active.id == 0 then 0 else 1)
    && (forall i | 0 <= i < |s.released| :: s.released[i] == i + 1)
    && (s.fields.active.id != 0 ==> s.fields.active.id == |s.begun| && Registered(s, s.fields.active))
    && (s.stopper.Stopping? || s.stopper.Releasing? ==> s.stopper.snapshot == s.fields.active && s.fields.active.id != 0)
    && |s.records| == |s.released| - (if s.stopper.Recording? then 1 else 0)
    && (s.stopper.Recording? ==> s.stopper.snapshot.id == |s.released| && Registered(s, s.stopper.snapshot))
    && forall i | 0 <= i < |s.records| ::
         s.records[i].snapshot.id == i + 1 && s.records[i].snapshot.info == s.begun[i]
  }

  lemma StepKeepsInvariant(s: State, step: Step, s': State)
    requires Invariant(s) && Next(s, step, s')
    ensures Invariant(s')
  {}

  datatype Run = Run(states: seq<State>, steps: seq<Step>)

  predicate Valid(r: Run) {
    && |r.states| == |r.steps| + 1
    && Init(r.states[0])
    && forall i | 0 <= i < |r.steps| :: Next(r.states[i], r.steps[i], r.states[i + 1])
  }

  lemma {:induction false} InvariantHolds(r: Run, i: nat)
    requires Valid(r) && i < |r.states|
    ensures Invariant(r.states[i])
  {
    if i > 0 {
      InvariantHolds(r, i - 1);
      StepKeepsInvariant(r.states[i - 1], r.steps[i - 1], r.states[i]);
    }
  }

  // In every interleaving each session is released at most once and recorded exactly when
  // released, with what it was opened with; every session but the active one has been released.
  lemma ReleasedAndRecordedOnce(r: Run, i: nat)
    requires Valid(r) && i < |r.states|
    ensures
      var s := r.states[i];
      && (forall a, b | 0 <= a < b < |s.released| :: s.released[a] != s.released[b])
      && (forall id | 0 < id <= |s.begun| :: id in s.released <==> id != s.fields.active.id)
      && |s.released| == |s.records| + (if s.stopper.Recording? then 1 else 0)
      && forall k | 0 <= k < |s.records| :: s.records[k].snapshot.id == s.released[k] && Registered(s, s.records[k].snapshot)
  {
    InvariantHolds(r, i);
    var s := r.states[i];
    forall id | 0 < id <= |s.begun| && id != s.fields.active.id
      ensures id in s.released
    {
      assert s.released[id - 1] == id;
    }
  }

  // A stop that found its session always gets to release it: nobody can take it away meanwhile.
  lemma FoundSessionIsReleased(r: Run, i: nat)
    requires Valid(r) && i < |r.steps| && r.steps[i] == Release
    ensures r.states[i + 1].stopper == Recording(r.states[i].stopper.snapshot, r.states[i].stopper.failed)
    ensures r.states[i].stopper.snapshot == r.states[i].fields.active
  {
    InvariantHolds(r, i);
    assert Next(r.states[i], r.steps[i], r.states[i + 1]);
  }

  // The steps of one stop that nothing disturbs do what the method does.
  lemma UndisturbedStop(s: State, stop: Stop, ok: bool, a: State, b: State, c: State, d: State, e: State)
    requires Next(s, LockStop(stop), a) && Next(a, Find, b)
    requires b.stopper.Stopping? ==> Next(b, DeviceStopped(ok), c)
    requires b.stopper.Stopping? && c.stopper.Releasing? ==> Next(c, Release, d) && Next(d, Persist, e)
    ensures b.stopper.Stopping? <==> Meant(stop, s.fields.active.id, s.fields.active.info)
    ensures !b.stopper.Stopping? ==> b == s
    ensures b.stopper.Stopping? ==>
      var failed := !ok && (stop.ByHandler? ==> stop.reset);
      if failed && stop.ByHandler? && !stop.force && s.fields.active.info.recordId == "" then c == s
      else
        e == s.(fields := Fields(Snapshot(0, NO_INFO), s.fields.nextId), released := s.released + [s.fields.active.id],
                records := s.records + [Record(s.fields.active, failed)])
  {}

  // Such a stop is possible whenever no other is under way.
  lemma StopRuns(s: State, stop: Stop, ok: bool) returns (a: State, b: State, c: State, d: State, e: State)
    requires Invariant(s) && s.stopper.Nobody?
    ensures Next(s, LockStop(stop), a) && Next(a, Find, b)
    ensures b.stopper.Stopping? ==> Next(b, DeviceStopped(ok), c)
    ensures b.stopper.Stopping? && c.stopper.Releasing? ==> Next(c, Release, d) && Next(d, Persist, e)
  {
    a := s.(stopper := Locked(stop));
    b := a.(stopper := if Finds(a.fields, stop) then Stopping(stop, a.fields.active) else Nobody);
    c, d, e := b, b, b;
    if b.stopper.Stopping? {
      var kept := stop.ByHandler? && stop.reset && !ok && KeepsSession(stop, b.stopper.snapshot);
      var failed := !ok && (stop.ByHandler? ==> stop.reset);
      c := b.(stopper := if kept then Nobody else Releasing(b.stopper.snapshot, failed));
      if c.stopper.Releasing? {
        d := c.(fields := Finished(c.fields), stopper := Recording(c.stopper.snapshot, failed),
                released := c.released + [c.stopper.snapshot.id]);
        e := d.(stopper := Nobody, records := d.records + [Record(d.stopper.snapshot, failed)]);
      }
    }
  }

  // Opening succeeds exactly if no session is active; the new one is the next in number.
  lemma BeginOpens(s: State, info: Info, s': State)
    requires Invariant(s) && Next(s, Begin(info), s')
    ensures s.fields.active.id == 0 ==>
      s'.fields.active == Snapshot(|s.begun| + 1, info) && s'.begun == s.begun + [info] && s'.stopper == s.stopper
    ensures s.fields.active.id != 0 ==> s' == s
  {}

  // A stop by token that finds a session has the one opened with that token.
  lemma TokenFindsItsSession(r: Run, i: nat)
    requires Valid(r) && i < |r.steps| && r.steps[i] == Find
    requires r.states[i].stopper.Locked? && r.states[i].stopper.stop.ByToken? && r.states[i + 1].stopper.Stopping?
    ensures
      var snapshot := r.states[i + 1].stopper.snapshot;
      && 0 < snapshot.id <= |r.states[i].begun|
      && r.states[i].begun[snapshot.id - 1].token == snapshot.info.token == r.states[i].stopper.stop.token != ""
  {
    InvariantHolds(r, i);
    assert Next(r.states[i], r.steps[i], r.states[i + 1]);
  }
}
