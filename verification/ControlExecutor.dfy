// Platform control messages: every task is executed once while its answer is remembered, and the
// memory is bounded. Models handleControl, rememberResponse and executeControl of
// internal/counterstrike/service.go and buildControlResponse of payload.go.
module ControlExecutor {
  import opened Bytes
  import opened Text

  const MAX_ENTRIES := 256
  const LEGACY_TOPIC := "platform/counter/strike/down"
  const DEFAULT_SECONDS := 60
  const MIN_SECONDS := 10
  const MAX_SECONDS := 180

  datatype Device = Device(typeAbbr: string, id: string)

  datatype Envelope = Envelope(cmd: string, taskId: string, typeAbbr: string, deviceId: string, duration: int, power: bool)

  // A payload that is not valid JSON may still have filled in some fields.
  datatype Payload = Parsed(req: Envelope) | Malformed(partial: Envelope)

  datatype Result = Result(code: int, message: string)

  datatype Response = Response(cmd: string, taskId: string, deviceId: string, timestamp: int, result: Result)

  // What the interference service is asked to do.
  datatype Strike = Open(channelIds: seq<string>, seconds: int) | Close

  // What the outside world answers: whether the interference service exists, which channels the
  // requested bands select (or why none), and the error a strike ends with.
  datatype World = World(available: bool, selected: Option<seq<string>>, selectError: string, strikeError: Option<string>)

  datatype Execution = Execution(taskId: string, strike: Option<Strike>, response: Response)

  function Distance(a: int, b: int): nat { if a < b then b - a else a - b }

  // The default, or the nearest allowed duration.
  function NormalizeDuration(seconds: int): (s: int)
    ensures 10 <= s <= 180
    ensures seconds <= 0 ==> s == 60
    ensures seconds > 0 ==> forall t | 10 <= t <= 180 :: Distance(s, seconds) <= Distance(t, seconds)
  {
    if seconds <= 0 then DEFAULT_SECONDS
    else if seconds < MIN_SECONDS then MIN_SECONDS
    else if seconds > MAX_SECONDS then MAX_SECONDS
    else seconds
  }

  function BuildResponse(req: Envelope, result: Result, now: int): Response {
    var cmd := Trim(req.cmd);
    Response((if cmd == "" then "strike.open" else cmd) + ".resp", Trim(req.taskId), Trim(req.deviceId), now, result)
  }

  predicate Addressed(device: Device, req: Envelope) {
    Trim(req.deviceId) == Trim(device.id) && Trim(req.typeAbbr) == Trim(device.typeAbbr)
  }

  // The outcome of a command and the one strike it may issue.
  function Execute(device: Device, req: Envelope, w: World): (o: (Result, Option<Strike>))
    ensures o.1.Some? <==>
      (Trim(req.taskId) != "" && Addressed(device, req) && w.available
       && (Trim(req.cmd) == "strike.close" || (Trim(req.cmd) == "strike.open" && !req.power && w.selected.Some?)))
    ensures o.1.Some? ==> if Trim(req.cmd) == "strike.close" then o.1.value == Close
      else o.1.value == Open(w.selected.value, NormalizeDuration(req.duration))
    ensures (o.0.code == 0 <==> o.1.Some? && w.strikeError.None?) && o.0.code in {0, 1}
    ensures o.1.Some? ==> o.0.message == if w.strikeError.Some? then w.strikeError.value else "success"
  {
    var answer := (success: Result) => if w.strikeError.Some? then Result(1, w.strikeError.value) else success;
    if Trim(req.taskId) == "" then (Result(1, "taskId is required"), None)
    else if Trim(req.deviceId) != Trim(device.id) then (Result(1, "deviceId does not match this device"), None)
    else if Trim(req.typeAbbr) != Trim(device.typeAbbr) then
      (Result(1, "deviceTypeAbbr does not match this device"), None)
    else if !w.available then (Result(1, "interference service is unavailable"), None)
    else if Trim(req.cmd) == "strike.close" then (answer(Result(0, "success")), Some(Close))
    else if Trim(req.cmd) == "strike.open" then
      if req.power then (Result(1, "power control is unsupported by local interference hardware"), None)
      else if w.selected.None? then (Result(1, w.selectError), None)
      else (answer(Result(0, "success")), Some(Open(w.selected.value, NormalizeDuration(req.duration))))
    else (Result(1, "unsupported cmd"), None)
  }

  // The last entries of a log, as many as are remembered.
  function Recent<T>(log: seq<T>): (r: seq<T>)
    ensures |r| <= MAX_ENTRIES
    ensures |r| <= |log| && r == log[|log| - |r|..]
    ensures |r| == if |log| <= MAX_ENTRIES then |log| else MAX_ENTRIES
  {
    if |log| <= MAX_ENTRIES then log else log[|log| - MAX_ENTRIES..]
  }

  predicate NoRepeats<T(==)>(s: seq<T>) { forall i, j | 0 <= i < j < |s| :: s[i] != s[j] }

  // Between two occurrences of an entry lie 256 others, pairwise distinct.
  predicate Spaced<T(==)>(log: seq<T>) {
    forall i, j | 0 <= i < j < |log| && log[i] == log[j] ::
      && j - i > MAX_ENTRIES
      && NoRepeats(log[j - MAX_ENTRIES..j])
      && log[j] !in log[j - MAX_ENTRIES..j]
  }

  lemma SpacedExtends<T>(log: seq<T>, x: T)
    requires Spaced(log) && NoRepeats(Recent(log)) && x !in Recent(log)
    ensures Spaced(log + [x]) && NoRepeats(Recent(log + [x]))
  {
    var longer, recent := log + [x], Recent(log);
    assert forall k | |log| - |recent| <= k < |log| :: log[k] in recent;
    forall i, j | 0 <= i < j < |longer| && longer[i] == longer[j]
      ensures j - i > MAX_ENTRIES
      ensures NoRepeats(longer[j - MAX_ENTRIES..j]) && longer[j] !in longer[j - MAX_ENTRIES..j]
    {
      if j < |log| {
        assert log[i] == log[j];
        assert longer[j - MAX_ENTRIES..j] == log[j - MAX_ENTRIES..j];
      } else {
        assert i < |log| - |recent|;
        assert longer[j - MAX_ENTRIES..j] == recent;
      }
    }
    assert Recent(longer) == if |log| < MAX_ENTRIES then recent + [x] else recent[1..] + [x];
  }

  function TaskIds(log: seq<Execution>): (ids: seq<string>)
    ensures |ids| == |log| && forall i | 0 <= i < |log| :: ids[i] == log[i].taskId
  {
    seq(|log|, i requires 0 <= i < |log| => log[i].taskId)
  }

  lemma RecentExtends<T>(log: seq<T>, x: T)
    ensures Recent(log + [x]) == if |log| < MAX_ENTRIES then Recent(log) + [x] else Recent(log)[1..] + [x]
  {}

  // The memory: one answer for each of the listed executions.
  ghost predicate Remembers(responses: map<string, Response>, recent: seq<Execution>) {
    && (forall i | 0 <= i < |recent| :: recent[i].taskId in responses && responses[recent[i].taskId] == recent[i].response)
    && (forall id | id in responses :: exists i | 0 <= i < |recent| :: recent[i].taskId == id)
    && forall i, j | 0 <= i < j < |recent| :: recent[i].taskId != recent[j].taskId
  }

  lemma RemembersMore(responses: map<string, Response>, recent: seq<Execution>, e: Execution)
    requires Remembers(responses, recent) && e.taskId !in responses
    ensures Remembers(responses[e.taskId := e.response], recent + [e])
  {
    var more := recent + [e];
    assert more[|recent|] == e;
    forall id | id in responses
      ensures exists i | 0 <= i < |more| :: more[i].taskId == id
    {
      var i :| 0 <= i < |recent| && recent[i].taskId == id;
      assert more[i] == recent[i];
    }
  }

  lemma RemembersLess(responses: map<string, Response>, recent: seq<Execution>)
    requires Remembers(responses, recent) && recent != []
    ensures Remembers(responses - {recent[0].taskId}, recent[1..])
  {
    var less, rest := responses - {recent[0].taskId}, recent[1..];
    forall id | id in less
      ensures exists i | 0 <= i < |rest| :: rest[i].taskId == id
    {
      var i :| 0 <= i < |recent| && recent[i].taskId == id;
      assert rest[i - 1] == recent[i];
    }
  }

  lemma RecentIds(log: seq<Execution>)
    ensures Recent(TaskIds(log)) == TaskIds(Recent(log))
  {}

  lemma SpacedIds(responses: map<string, Response>, log: seq<Execution>, e: Execution)
    requires Remembers(responses, Recent(log)) && Spaced(TaskIds(log)) && e.taskId !in responses
    ensures Spaced(TaskIds(log + [e]))
  {
    hide Remembers, Spaced, NoRepeats, Recent;
    RecentIds(log);
    NotRecent(responses, Recent(log), e.taskId);
    SpacedExtends(TaskIds(log), e.taskId);
    assert TaskIds(log + [e]) == TaskIds(log) + [e.taskId];
  }

  lemma NotRecent(responses: map<string, Response>, recent: seq<Execution>, id: string)
    requires Remembers(responses, recent) && id !in responses
    ensures NoRepeats(TaskIds(recent)) && id !in TaskIds(recent)
  {}

  function Pushed(recent: seq<Execution>, e: Execution): seq<Execution> {
    if |recent| < MAX_ENTRIES then recent + [e] else recent[1..] + [e]
  }

  // What rememberResponse does to the map and the queue.
  lemma RememberStep(responses: map<string, Response>, recent: seq<Execution>, e: Execution)
    requires Remembers(responses, recent) && e.taskId !in responses && |recent| <= MAX_ENTRIES
    ensures
      var added, queue := responses[e.taskId := e.response], TaskIds(recent) + [e.taskId];
      if |queue| > MAX_ENTRIES then
        Remembers(added - {queue[0]}, Pushed(recent, e)) && queue[1..] == TaskIds(Pushed(recent, e))
      else
        Remembers(added, Pushed(recent, e)) && queue == TaskIds(Pushed(recent, e))
  {
    RemembersMore(responses, recent, e);
    if |recent| == MAX_ENTRIES {
      RemembersLess(responses[e.taskId := e.response], recent + [e]);
      assert (recent + [e])[1..] == Pushed(recent, e);
      assert (recent + [e])[0] == recent[0];
    }
  }

  lemma HistoryGrows(responses: map<string, Response>, log: seq<Execution>, e: Execution)
    requires Remembers(responses, Recent(log)) && Spaced(TaskIds(log)) && NonEmptyIds(log)
    requires e.taskId !in responses && e.taskId != ""
    ensures Spaced(TaskIds(log + [e])) && NonEmptyIds(log + [e])
    ensures Recent(log + [e]) == Pushed(Recent(log), e)
  {
    RecentExtends(log, e);
    SpacedIds(responses, log, e);
  }

  ghost predicate Answered(recent: seq<Execution>, id: string, response: Response) {
    exists i | 0 <= i < |recent| :: recent[i].taskId == id && recent[i].response == response
  }

  lemma MemoryIsHistory(responses: map<string, Response>, recent: seq<Execution>, id: string)
    requires Remembers(responses, recent)
    ensures id in responses <==> id in TaskIds(recent)
    ensures id in responses ==> Answered(recent, id, responses[id])
  {
    if id in TaskIds(recent) {
      var i :| 0 <= i < |recent| && TaskIds(recent)[i] == id;
      assert recent[i].taskId == id;
    }
    if id in responses {
      var i :| 0 <= i < |recent| && recent[i].taskId == id;
      assert TaskIds(recent)[i] == id;
    }
  }

  ghost predicate NonEmptyIds(log: seq<Execution>) { forall i | 0 <= i < |log| :: log[i].taskId != "" }

  lemma NeverEmpty(log: seq<Execution>)
    requires NonEmptyIds(log)
    ensures "" !in TaskIds(Recent(log))
  {}

  datatype Handling = Ignored | Refused(response: Response) | Replayed(response: Response) | Executed

  // What a message leads to, in terms of the history alone.
  ghost predicate Handles(log: seq<Execution>, device: Device, topic: string, payload: Payload, now: int, h: Handling) {
    match payload
    case Malformed(partial) =>
      h == if topic == LEGACY_TOPIC then Ignored
           else Refused(BuildResponse(partial, Result(1, "invalid JSON payload"), now))
    case Parsed(req) =>
      if topic == LEGACY_TOPIC && !Addressed(device, req) then h == Ignored
      else if Trim(req.taskId) in TaskIds(Recent(log)) then
        h.Replayed? && Answered(Recent(log), Trim(req.taskId), h.response)
      else h == Executed
  }

  function Outcome(device: Device, req: Envelope, w: World, now: int): Execution {
    var (result, strike) := Execute(device, req, w);
    Execution(Trim(req.taskId), strike, BuildResponse(req, result, now))
  }

  // The histories after executing: an empty task identifier is answered but not remembered.
  predicate Performed(log: seq<Execution>, log': seq<Execution>, sent: seq<Response>, sent': seq<Response>, e: Execution) {
    sent' == sent + [e.response] && log' == if e.taskId == "" then log else log + [e]
  }

  // What the interference service was asked to do, and for which task.
  datatype Issue = Issue(taskId: string, strike: Strike)

  function IssuesOf(e: Execution): seq<Issue> {
    if e.strike.Some? then [Issue(e.taskId, e.strike.value)] else []
  }

  function Issues(log: seq<Execution>): seq<Issue> {
    if log == [] then [] else Issues(log[..|log| - 1]) + IssuesOf(log[|log| - 1])
  }

  lemma IssuesSnoc(log: seq<Execution>, e: Execution)
    ensures Issues(log + [e]) == Issues(log) + IssuesOf(e)
  {
    assert (log + [e])[..|log|] == log;
  }

  // ---- what a message leads to, in its own terms ----

  // A strike is asked for.
  predicate Orders(device: Device, req: Envelope, w: World) {
    && Trim(req.taskId) != "" && Trim(req.deviceId) == Trim(device.id) && Trim(req.typeAbbr) == Trim(device.typeAbbr)
    && w.available
    && (Trim(req.cmd) == "strike.close" || (Trim(req.cmd) == "strike.open" && !req.power && w.selected.Some?))
  }

  // This one, for this task.
  predicate Ordered(req: Envelope, w: World, issue: Issue) {
    && issue.taskId == Trim(req.taskId)
    && if Trim(req.cmd) == "strike.close" then issue.strike == Close
       else w.selected.Some? && issue.strike == Open(w.selected.value, NormalizeDuration(req.duration))
  }

  // The answer belongs to the request.
  predicate AnswersTo(req: Envelope, now: int, r: Response) {
    && r.cmd == (if Trim(req.cmd) == "" then "strike.open.resp" else Trim(req.cmd) + ".resp")
    && r.taskId == Trim(req.taskId) && r.deviceId == Trim(req.deviceId) && r.timestamp == now
  }

  // It reports success exactly if a strike was asked for and succeeded, and otherwise why not.
  predicate Reports(asked: bool, w: World, result: Result) {
    && (result.code == 0 <==> asked && w.strikeError.None?) && result.code in {0, 1}
    && (asked ==> result.message == if w.strikeError.Some? then w.strikeError.value else "success")
  }

  // One of the last 256 remembered executions was of this task, and was answered so.
  ghost predicate AnsweredLately(log: seq<Execution>, id: string, r: Response) {
    exists i | 0 <= i < |log| :: i >= |log| - 256 && log[i].taskId == id && log[i].response == r
  }

  ghost predicate DoneLately(log: seq<Execution>, id: string) {
    exists i | 0 <= i < |log| :: i >= |log| - 256 && log[i].taskId == id
  }

  lemma Lately(log: seq<Execution>, id: string)
    ensures id in TaskIds(Recent(log)) <==> DoneLately(log, id)
  {
    if DoneLately(log, id) {
      LatelyRecent(log, id);
    }
    if id in TaskIds(Recent(log)) {
      RecentLately(log, id);
    }
  }

  lemma LatelyRecent(log: seq<Execution>, id: string)
    requires DoneLately(log, id)
    ensures id in TaskIds(Recent(log))
  {
    var recent := Recent(log);
    var i :| 0 <= i < |log| && i >= |log| - 256 && log[i].taskId == id;
    assert recent[i - (|log| - |recent|)] == log[i];
    assert TaskIds(recent)[i - (|log| - |recent|)] == id;
  }

  lemma RecentLately(log: seq<Execution>, id: string)
    requires id in TaskIds(Recent(log))
    ensures DoneLately(log, id)
  {
    var recent := Recent(log);
    var i :| 0 <= i < |recent| && TaskIds(recent)[i] == id;
    assert recent[i] == log[|log| - |recent| + i];
  }

  lemma LatelyAnswered(log: seq<Execution>, id: string, r: Response)
    requires Answered(Recent(log), id, r)
    ensures AnsweredLately(log, id, r)
  {
    var recent := Recent(log);
    var i :| 0 <= i < |recent| && recent[i].taskId == id && recent[i].response == r;
    assert recent[i] == log[|log| - |recent| + i];
  }

  lemma OutcomeMeans(device: Device, req: Envelope, w: World, now: int)
    ensures
      var (result, strike), e := Execute(device, req, w), Outcome(device, req, w, now);
      && e == Execution(Trim(req.taskId), strike, BuildResponse(req, result, now)) && e.response.taskId == e.taskId
      && AnswersTo(req, now, e.response) && Reports(Orders(device, req, w), w, e.response.result)
      && (strike.Some? <==> Orders(device, req, w))
      && (strike.Some? ==> Ordered(req, w, Issue(e.taskId, strike.value)))
  {
    hide Trim;
  }

  class Executor {
    var responses: map<string, Response>
    var responseTaskIds: seq<string>

    // Histories: the remembered kind of executions, what was asked of the interference service, and
    // everything published.
    ghost var executed: seq<Execution>
    ghost var issued: seq<Issue>
    ghost var published: seq<Response>

    ghost predicate Remembering()
      reads `responses, `responseTaskIds, `executed
    {
      && responseTaskIds == TaskIds(Recent(executed))
      && Remembers(responses, Recent(executed))
      && Spaced(TaskIds(executed))
      && NonEmptyIds(executed)
    }

    // Every strike asked for is that of a remembered execution, and the other way round.
    ghost predicate Valid()
      reads this
    {
      Remembering() && issued == Issues(executed)
    }

    constructor ()
      ensures Valid() && executed == [] && issued == [] && published == []
    {
      responses, responseTaskIds := map[], [];
      executed, issued, published := [], [], [];
    }

    method RememberResponse(response: Response, ghost e: Execution)
      requires Remembering() && e.taskId == response.taskId && e.response == response
      modifies `responses, `responseTaskIds, `executed
      ensures Remembering()
      ensures executed ==
        if response.taskId == "" || response.taskId in old(responses) then old(executed) else old(executed) + [e]
    {
      if response.taskId == "" {
        return;
      }
      if response.taskId in responses {
        return;
      }
      HistoryGrows(responses, executed, e);
      RememberStep(responses, Recent(executed), e);
      responses := responses[response.taskId := response];
      responseTaskIds := responseTaskIds + [response.taskId];
      if |responseTaskIds| > MAX_ENTRIES {
        var oldest := responseTaskIds[0];
        responseTaskIds := responseTaskIds[1..];
        responses := responses - {oldest};
      }
      executed := executed + [e];
    }

    // The one place where a strike is asked for; the answer is part of the world.
    method SetScreenStrike(strike: Strike, ghost taskId: string)
      modifies `issued
      ensures issued == old(issued) + [Issue(taskId, strike)]
    {
      issued := issued + [Issue(taskId, strike)];
    }

    // A message that has to be executed.
    method ExecuteControl(device: Device, req: Envelope, w: World, now: int)
      requires Valid() && (Trim(req.taskId) == "" || Trim(req.taskId) !in responses)
      modifies this
      ensures Valid()
      ensures Performed(old(executed), executed, old(published), published, Outcome(device, req, w, now))
      ensures |published| == |old(published)| + 1 && old(published) <= published
      ensures AnswersTo(req, now, published[|old(published)|])
      ensures Reports(Orders(device, req, w), w, published[|old(published)|].result)
      ensures if Orders(device, req, w) then |issued| == |old(issued)| + 1 && old(issued) <= issued
                && Ordered(req, w, issued[|old(issued)|])
              else issued == old(issued)
    {
      hide Trim, Remembers, Spaced, NonEmptyIds, Issues, Execute, BuildResponse, AnswersTo, Orders, Ordered, Reports,
        Outcome, TaskIds, Recent;
      var id := Trim(req.taskId);
      OutcomeMeans(device, req, w, now);
      var (result, strike) := Execute(device, req, w);
      if strike.Some? {
        SetScreenStrike(strike.value, id);
      }
      var response := BuildResponse(req, result, now);
      ghost var e := Execution(id, strike, response);
      IssuesSnoc(executed, e);
      RememberResponse(response, e);
      published := published + [response];
    }

    // One message, start to end under the control lock. Ignored: on the shared topic, and broken or
    // for another device. Refused: broken. Replayed: the task is among the last 256 remembered.
    method HandleControl(device: Device, topic: string, payload: Payload, w: World, now: int)
      returns (ghost h: Handling)
      requires Valid()
      modifies this
      ensures Valid()
      ensures Handles(old(executed), device, topic, payload, now, h)
      ensures h.Ignored? ==> executed == old(executed) && published == old(published)
      ensures h.Refused? || h.Replayed? ==> executed == old(executed) && published == old(published) + [h.response]
      ensures h.Executed? ==> payload.Parsed? && Performed(old(executed), executed, old(published), published,
          Outcome(device, payload.req, w, now))
      ensures h.Ignored? <==>
        (topic == "platform/counter/strike/down"
         && (payload.Parsed? ==> Trim(payload.req.deviceId) != Trim(device.id)
                                 || Trim(payload.req.typeAbbr) != Trim(device.typeAbbr)))
      ensures h.Refused? <==> payload.Malformed? && topic != "platform/counter/strike/down"
      ensures h.Replayed? <==> payload.Parsed? && !h.Ignored? && DoneLately(old(executed), Trim(payload.req.taskId))
      ensures old(published) <= published && |published| == |old(published)| + if h.Ignored? then 0 else 1
      ensures h.Refused? ==>
        (AnswersTo(payload.partial, now, published[|old(published)|])
         && published[|old(published)|].result == Result(1, "invalid JSON payload"))
      ensures h.Replayed? ==> AnsweredLately(old(executed), Trim(payload.req.taskId), published[|old(published)|])
      ensures h.Executed? ==>
        (AnswersTo(payload.req, now, published[|old(published)|])
         && Reports(Orders(device, payload.req, w), w, published[|old(published)|].result))
      ensures if h.Executed? && Orders(device, payload.req, w)
              then |issued| == |old(issued)| + 1 && old(issued) <= issued && Ordered(payload.req, w, issued[|old(issued)|])
              else issued == old(issued)
    {
      hide Trim, Execute, Issues, Spaced, Outcome, Recent, Remembers, TaskIds, NonEmptyIds, Answered, Performed,
        AnsweredLately, DoneLately, Orders, Ordered, Reports;
      if payload.Malformed? {
        if topic == LEGACY_TOPIC {
          return Ignored;
        }
        var response := BuildResponse(payload.partial, Result(1, "invalid JSON payload"), now);
        published := published + [response];
        return Refused(response);
      }
      var req := payload.req;
      if topic == LEGACY_TOPIC && (Trim(req.deviceId) != Trim(device.id) || Trim(req.typeAbbr) != Trim(device.typeAbbr)) {
        return Ignored;
      }
      var id := Trim(req.taskId);
      MemoryIsHistory(responses, Recent(executed), id);
      Lately(executed, id);
      NeverEmpty(executed);
      if id in responses && id != "" {
        var cached := responses[id];
        LatelyAnswered(executed, id, cached);
        published := published + [cached];
        return Replayed(cached);
      }
      ExecuteControl(device, req, w, now);
      return Executed;
    }
  }

  // ---- runs ----

  // Entries i and j of the log repeat a task, and 256 executions of other, pairwise different tasks
  // lie between them.
  ghost predicate FarApart(log: seq<Execution>, i: nat, j: nat) {
    && i < j < |log| && j - i > 256
    && (forall k | j - 256 <= k < j :: log[k].taskId != log[j].taskId)
    && forall k, l | j - 256 <= k < l < j :: log[k].taskId != log[l].taskId
  }

  lemma RepeatsAreFarApart(log: seq<Execution>, i: nat, j: nat)
    requires Spaced(TaskIds(log)) && i < j < |log| && log[i].taskId == log[j].taskId
    ensures FarApart(log, i, j)
  {
    var ids := TaskIds(log);
    assert ids[i] == ids[j];
    var between := ids[j - MAX_ENTRIES..j];
    forall k | j - MAX_ENTRIES <= k < j
      ensures between[k - (j - MAX_ENTRIES)] == log[k].taskId && log[k].taskId in between
    {
      assert between[k - (j - MAX_ENTRIES)] == ids[k];
    }
  }

  // Strike number a was asked for by execution i.
  predicate AskedBy(log: seq<Execution>, issued: seq<Issue>, a: nat, i: nat) {
    a < |issued| && i < |log| && IssuesOf(log[i]) == [issued[a]] && |Issues(log[..i])| == a
  }

  lemma {:induction false} AskedBySome(log: seq<Execution>, a: nat) returns (i: nat)
    requires a < |Issues(log)|
    ensures AskedBy(log, Issues(log), a, i)
  {
    var init, last := log[..|log| - 1], log[|log| - 1];
    if a < |Issues(init)| {
      i := AskedBySome(init, a);
      assert log[..i] == init[..i];
    } else {
      i := |log| - 1;
    }
  }

  lemma {:induction false} FewerIssuesBefore(log: seq<Execution>, i: nat, j: nat)
    requires i <= j <= |log|
    ensures |Issues(log[..i])| <= |Issues(log[..j])|
    decreases j
  {
    if i < j {
      FewerIssuesBefore(log, i, j - 1);
      assert log[..j][..j - 1] == log[..j - 1];
    }
  }

  // The at-most-once law: two strikes asked for one task come from two executions of it, with 256
  // executions of other, pairwise different tasks between them.
  lemma StrikesOfOneTaskAreFarApart(e: Executor, a: nat, b: nat) returns (i: nat, j: nat)
    requires e.Valid() && a < b < |e.issued| && e.issued[a].taskId == e.issued[b].taskId
    ensures AskedBy(e.executed, e.issued, a, i) && AskedBy(e.executed, e.issued, b, j)
    ensures FarApart(e.executed, i, j)
  {
    hide Spaced, TaskIds, Recent, Remembers, FarApart;
    i := AskedBySome(e.executed, a);
    j := AskedBySome(e.executed, b);
    AskedInOrder(e.executed, e.issued, a, b, i, j);
    RepeatsAreFarApart(e.executed, i, j);
  }

  lemma AskedInOrder(log: seq<Execution>, issued: seq<Issue>, a: nat, b: nat, i: nat, j: nat)
    requires AskedBy(log, issued, a, i) && AskedBy(log, issued, b, j) && a < b
    ensures i < j
    ensures log[i].taskId == issued[a].taskId && log[j].taskId == issued[b].taskId
  {
    assert IssuesOf(log[i])[0] == issued[a] && IssuesOf(log[j])[0] == issued[b];
    assert log[..j + 1] == log[..j] + [log[j]];
    IssuesSnoc(log[..j], log[j]);
    if j < i {
      FewerIssuesBefore(log, j + 1, i);
    }
  }

  ghost predicate OncePerWindow(issued: seq<Issue>, log: seq<Execution>) {
    forall a, b | 0 <= a < b < |issued| && issued[a].taskId == issued[b].taskId ::
      exists i, j :: AskedBy(log, issued, a, i) && AskedBy(log, issued, b, j) && FarApart(log, i, j)
  }

  datatype Message = Message(device: Device, topic: string, payload: Payload, world: World, now: int)

  // Any messages in any order, whatever the world answers and however the device is renamed.
  method AnyMessages(messages: seq<Message>) returns (e: Executor)
    ensures e.Valid() && OncePerWindow(e.issued, e.executed)
  {
    e := new Executor();
    for n := 0 to |messages|
      invariant fresh(e) && e.Valid()
    {
      var m := messages[n];
      ghost var h := e.HandleControl(m.device, m.topic, m.payload, m.world, m.now);
    }
    forall a, b | 0 <= a < b < |e.issued| && e.issued[a].taskId == e.issued[b].taskId
      ensures exists i, j :: AskedBy(e.executed, e.issued, a, i) && AskedBy(e.executed, e.issued, b, j)
                && FarApart(e.executed, i, j)
    {
      var i, j := StrikesOfOneTaskAreFarApart(e, a, b);
    }
  }
}
