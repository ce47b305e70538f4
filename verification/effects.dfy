// What a request and a report come to, in terms of the tables alone: when a job is
// handed out, to whom and as what, and what becomes of each column of a reported row
// (cloud/internal/gateway/gateway.go).
module Effects {
  import opened Options
  import opened OutputPaths
  import opened JobModel
  import opened Messages
  import opened Store
  import opened Registry
  import opened Dispatch
  import opened DispatchRows
  import opened Handlers
  import opened Compensation

  // ---- Requests.

  // The agent may be given a job: it was heard from in the last minute, is not paused and
  // has room.
  predicate Eligible(agents: Agents, agent: AgentId, now: int) {
    && agent in agents && now - agents[agent].lastHeartbeat < 60_000
    && !agents[agent].paused && agents[agent].running < agents[agent].max
  }

  // What the agent last said decides: after a heartbeat it is given a job within a minute,
  // if it is not paused and reports fewer jobs than its limit.
  lemma HeartbeatDecides(sv: Server, agent: AgentId, paused: bool, running: int, now: int, world: World)
    ensures var sv' := sv.(agents := Beaten(sv.agents, agent, paused, running, now));
      var later := world(RCheck(agent)).now;
      !(agent in sv.agents && later - now < 60_000 && !paused && running < sv.agents[agent].max) ==>
        Finish(sv', RCheck(agent), world) == Final(sv', None)
    ensures var sv' := sv.(agents := Beaten(sv.agents, agent, paused, running, now));
      var later := world(RCheck(agent)).now;
      agent in sv.agents && later - now < 60_000 && !paused && running < sv.agents[agent].max ==>
        Finish(sv', RCheck(agent), world) == Finish(sv', RDequeue(agent, 0), world)
  {
    hide Finish;
    CheckOnce(sv.(agents := Beaten(sv.agents, agent, paused, running, now)), agent, world);
  }

  // The handler, at try number i, can read the entry and finds it PENDING.
  predicate Waiting(sv: Server, agent: AgentId, i: nat, world: World)
    requires i < |sv.queue|
  {
    && !world(RGet(agent, i, sv.queue[i])).fails && sv.queue[i] in sv.rows
    && sv.rows[sv.queue[i]].status == Pending
  }

  // Entry n is the first of the first five that is waiting, and the queue answers so far.
  ghost predicate Finds(sv: Server, agent: AgentId, n: nat, world: World) {
    && n < 5 && n < |sv.queue| && Waiting(sv, agent, n, world)
    && (forall i: nat | i < n :: !Waiting(sv, agent, i, world))
    && (forall i | 0 <= i <= n :: Answers(agent, i, world))
  }

  // The loop's own account of what it takes, without the loop.
  lemma PickFinds(sv: Server, agent: AgentId, n: nat, world: World)
    ensures Pick(sv.rows, sv.queue, agent, 0, world) == (n + 1, true) <==> Finds(sv, agent, n, world)
  {
    PickExact(sv.rows, sv.queue, agent, 0, world);
    var (taken, found) := Pick(sv.rows, sv.queue, agent, 0, world);
    hide Pick;
    assert forall i: nat | i < |sv.queue| ::
        Ready(sv.rows, agent, 0 + i, sv.queue[i], world) == Waiting(sv, agent, i, world);
    assert Finds(sv, agent, n, world) && taken <= n ==> Answers(agent, taken, world);
    if taken == n + 1 && found {
      forall i: nat | i < n ensures !Waiting(sv, agent, i, world) {
        assert !Ready(sv.rows, agent, 0 + i, sv.queue[i], world);
      }
    }
  }

  // The handler's position once it has taken entry n.
  function Taken(sv: Server, agent: AgentId, n: nat): Work
    requires n < |sv.queue| && sv.queue[n] in sv.rows
  {
    WorkOn(sv, agent, sv.queue[n])
  }

  // Entry n is found by an eligible agent, and nothing fails until its job is sent.
  ghost predicate Serves(sv: Server, agent: AgentId, n: nat, world: World) {
    && Eligible(sv.agents, agent, world(RCheck(agent)).now) && Finds(sv, agent, n, world)
    && !FailsBeforeCommit(Taken(sv, agent, n), world) && !FailsAfterCommit(Taken(sv, agent, n), world)
  }

  lemma CheckedExactly(sv: Server, agent: AgentId, world: World)
    ensures Finish(sv, RCheck(agent), world)
         == if Eligible(sv.agents, agent, world(RCheck(agent)).now) then Finish(sv, RDequeue(agent, 0), world)
            else Final(sv, None)
  {
    CheckOnce(sv, agent, world);
  }

  // What the handler does with the entry that it takes.
  lemma GoesOn(sv: Server, agent: AgentId, n: nat, world: World)
    requires Eligible(sv.agents, agent, world(RCheck(agent)).now) && Finds(sv, agent, n, world)
    ensures Finish(sv, RCheck(agent), world)
         == Finish(sv.(queue := sv.queue[n + 1..]), Begin(Taken(sv, agent, n)), world)
    ensures Taken(sv.(queue := sv.queue[n..]), agent, 0) == Taken(sv, agent, n)
  {
    hide Finish, PlanFor, Begin;
    CheckedExactly(sv, agent, world);
    PickFinds(sv, agent, n, world);
    FinishPicks(sv, agent, 0, world);
  }

  // A job is handed out exactly if the agent is eligible, one of the first five entries is
  // waiting, and nothing fails. An agent that is not eligible changes nothing at all.
  lemma SendsExactly(sv: Server, agent: AgentId, world: World)
    ensures Finish(sv, RCheck(agent), world).sent.Some? <==> exists n: nat :: Serves(sv, agent, n, world)
    ensures !Eligible(sv.agents, agent, world(RCheck(agent)).now) ==>
              Finish(sv, RCheck(agent), world) == Final(sv, None)
  {
    hide Finish, PlanFor, FailsBeforeCommit, FailsAfterCommit, Begin;
    CheckedExactly(sv, agent, world);
    if Eligible(sv.agents, agent, world(RCheck(agent)).now) {
      var (taken, found) := Pick(sv.rows, sv.queue, agent, 0, world);
      FinishPicks(sv, agent, 0, world);
      if found {
        PickFinds(sv, agent, taken - 1, world);
        SendsTaken(sv, agent, taken - 1, world);
      }
      forall n: nat | Finds(sv, agent, n, world) ensures taken == n + 1 && found { PickFinds(sv, agent, n, world); }
    }
  }

  lemma SendsTaken(sv: Server, agent: AgentId, n: nat, world: World)
    requires Eligible(sv.agents, agent, world(RCheck(agent)).now) && Finds(sv, agent, n, world)
    ensures Finish(sv, RCheck(agent), world).sent.Some? <==> Serves(sv, agent, n, world)
  {
    hide Finish, PlanFor, Begin, Assignment;
    GoesOn(sv, agent, n, world);
    var left := sv.(queue := sv.queue[n + 1..]);
    if FailsBeforeCommit(Taken(sv, agent, n), world) {
      RollsBack(left, agent, sv.queue[n], world);
    } else {
      CommitsOrStrands(left, agent, sv.queue[n], world);
    }
  }

  // The calls from the chosen row to the send, none of them failing.
  lemma Unhindered(sv: Server, agent: AgentId, id: JobId, world: World)
    requires id in sv.rows && sv.rows[id].status == Pending
    requires !FailsBeforeCommit(WorkOn(sv, agent, id), world) && !FailsAfterCommit(WorkOn(sv, agent, id), world)
    ensures var l := Leased(WorkOn(sv, agent, id), world);
      Finish(sv, Begin(WorkOn(sv, agent, id)), world)
      == Final(Server(sv.rows[id := sv.rows[id].(status := Assigned, attempt := l.plan.attempt, owner := agent,
                                                 lease := l.lease, outputKey := l.plan.key,
                                                 outputPrefix := l.plan.prefix)],
                      sv.queue, Counted(sv.agents, agent, 1, world(RCount(l)).now)), Some(Assignment(l)))
  {
    hide Finish, Assignment, Counted, PrefixOf, FileExtension;
    var w := WorkOn(sv, agent, id);
    var raised := if w.job.attempt < 1 then sv.(rows := WithAttempt(sv.rows, id, 1)) else sv;
    AttemptOnce(sv, w, world);
    UnhinderedRaised(raised, Raised(w), world);
  }

  lemma UnhinderedRaised(sv: Server, w: Work, world: World)
    requires w.id in sv.rows && sv.rows[w.id].status == Pending && w.job.attempt >= 1
    requires !FailsBeforeCommit(w, world) && !FailsAfterCommit(w, world)
    ensures var l := Leased(w, world);
      Finish(sv, RUrls(w), world)
      == Final(Server(sv.rows[w.id := sv.rows[w.id].(status := Assigned, owner := w.agent, lease := l.lease,
                                                     outputKey := w.plan.key, outputPrefix := w.plan.prefix)],
                      sv.queue, Counted(sv.agents, w.agent, 1, world(RCount(l)).now)), Some(Assignment(l)))
  {
    hide Finish, Assignment, Counted;
    var l := Leased(w, world);
    UrlsOnce(sv, w, world);
    AssignOnce(sv, w, world);
    var claimed := sv.(rows := WithOwner(sv.rows, w.id, w.agent, l.lease));
    Assigning(claimed, l, world);
    var stamped := claimed.(rows := WithStatus(claimed.rows, w.id, Assigned));
    OutputOnce(stamped, l, world);
    MarshalOnce(stamped.(rows := WithOutput(stamped.rows, w.id, w.plan.key, w.plan.prefix)), l, world);
  }

  // The job at the place where it is found is handed to the agent that asked: the message
  // carries the job's work, its lease, and its own output location; the row becomes that
  // agent's; the agent is counted one job more; entries up to it leave the queue; and
  // nothing else changes.
  lemma HandsOver(sv: Server, agent: AgentId, n: nat, world: World)
    requires Serves(sv, agent, n, world)
    ensures var f := Finish(sv, RCheck(agent), world); var id := sv.queue[n];
      var j, info := sv.rows[id], sv.agents[agent];
      && f.sent.Some? && var m := f.sent.value;
      var attempt := if j.attempt < 1 then 1 else j.attempt;
      && m.id == id && m.attempt == Int32(attempt) && Carries(m, j.spec)
      && m.outputPrefix == "jobs/" + id + "/" + Itoa(attempt) + "/"
      && m.outputKey == m.outputPrefix + "output." + FileExtension(j.spec.outputExtension)
      && m.outputUpload == Presigned(Upload(m.outputKey))
      && m.lease == world(RAssign(Raised(Taken(sv, agent, n)))).uuid
      && f.sv.rows == sv.rows[id := j.(status := Assigned, attempt := attempt, owner := agent, lease := m.lease,
                                       outputKey := m.outputKey, outputPrefix := m.outputPrefix)]
      && f.sv.queue == sv.queue[n + 1..]
      && f.sv.agents.Keys == sv.agents.Keys
      && (forall a | a in sv.agents && a != agent :: f.sv.agents[a] == sv.agents[a])
      && f.sv.agents[agent] == info.(running := info.running + 1, lastHeartbeat := f.sv.agents[agent].lastHeartbeat)
  {
    hide Finish, Begin, Int32, Itoa, FileExtension, FailsBeforeCommit, FailsAfterCommit;
    GoesOn(sv, agent, n, world);
    Unhindered(sv.(queue := sv.queue[n + 1..]), agent, sv.queue[n], world);
  }

  // In short: what is sent is about the entry that was found, and the row agrees with it.
  lemma ServedAgrees(sv: Server, agent: AgentId, n: nat, world: World)
    requires Serves(sv, agent, n, world)
    ensures var f := Finish(sv, RCheck(agent), world);
      && f.sent.Some? && var m := f.sent.value;
      && n < |sv.queue| && m.id == sv.queue[n] && m.id in f.sv.rows && Agrees(f.sv.rows, m)
      && f.sv.rows[m.id].status == Assigned && f.sv.rows[m.id].owner == agent
  {
    hide Finish, Begin, Int32, Itoa, FileExtension, Carries;
    HandsOver(sv, agent, n, world);
  }

  // ---- Reports.

  // A report that is taken up: on a job of the agent, in its current attempt, not yet ended.
  predicate TakenUp(sv: Server, agent: AgentId, m: JobStatus, world: World) {
    && !world(SGet(agent, m)).fails && m.id in sv.rows
    && sv.rows[m.id].owner == agent && sv.rows[m.id].attempt == m.attempt
    && sv.rows[m.id].status !in {Succeeded, Failed, Canceled, Lost}
  }

  // The statuses from which a job goes where the report says, by the report's number.
  function Sources(status: int): set<Status> {
    match status
    case 1 => {Pending}
    case 2 => {Assigned}
    case 3 => {Running}
    case 4 => {Running}
    case 5 => {Pending, Assigned, Running}
    case 6 => {Assigned, Running}
    case _ => {}
  }

  // Where that is; a success with another key than the stored one is a failure.
  function Destination(m: JobStatus, stored: string): Status {
    match m.status
    case 1 => Assigned
    case 2 => Running
    case 3 => if m.outputKey == "" || m.outputKey == stored then Succeeded else Failed
    case 4 => Failed
    case 5 => Canceled
    case 6 => Lost
    case _ => Pending
  }

  predicate Moves(m: JobStatus, agent: AgentId, j: Job, world: World) {
    var to := Destination(m, j.outputKey);
    && j.status in Sources(m.status)
    && !world(SRead(agent, m, j, to)).fails && !world(SWrite(agent, m, j, to)).fails
  }

  predicate HasStreams(m: JobStatus) {
    m.status == 3 || m.status == 4 || (m.status == 2 && (m.stdout != "" || m.stderr != ""))
  }

  lemma SourcesAreTransitions(m: JobStatus, j: Job)
    requires j.status !in {Succeeded, Failed, Canceled, Lost}
    ensures Target(m, j) == Destination(m, j.outputKey)
    ensures j.status in Sources(m.status) <==> j.status.CanTransitionTo(Destination(m, j.outputKey))
    ensures Destination(m, j.outputKey).IsValid()
    ensures m.status != 3 ==> Destination(m, j.outputKey) == StatusFromProto(m.status)
    ensures j.status in Sources(m.status) ==> Destination(m, j.outputKey) != Pending
  {}

  // The move to the new status; the job ends, or the handler does.
  lemma Moved(sv: Server, agent: AgentId, m: JobStatus, j: Job, world: World)
    requires m.id in sv.rows && sv.rows[m.id].status == j.status && j.status !in {Succeeded, Failed, Canceled, Lost}
    ensures var to := Destination(m, j.outputKey);
      Finish(sv, SRead(agent, m, j, to), world)
      == if !Moves(m, agent, j, world) then Final(sv, None)
         else
           var sv' := sv.(rows := sv.rows[m.id := sv.rows[m.id].(status := to)]);
           if to != Assigned && to != Running then Finish(sv', SCount(agent), world) else Final(sv', None)
  {
    hide Finish, Status.CanTransitionTo, Target, Destination, Sources;
    SourcesAreTransitions(m, j);
    MoveOnce(sv, agent, m, j, Destination(m, j.outputKey), world);
    FinishIdle(sv.(rows := WithStatus(sv.rows, m.id, Destination(m, j.outputKey))), world);
  }

  // The row once the report's streams and status are in it, as far as they get there.
  function Settled(row: Job, m: JobStatus, streamed: bool, moved: bool): Job {
    row.(stdout := if streamed then m.stdout else row.stdout,
         stderr := if streamed then m.stderr else row.stderr,
         status := if moved then Destination(m, row.outputKey) else row.status)
  }

  lemma Branch(sv: Server, agent: AgentId, m: JobStatus, j: Job, world: World)
    requires j.status !in {Succeeded, Failed, Canceled, Lost}
    ensures var streamed := HasStreams(m) && !world(SStreams(agent, m, j)).fails;
      var sv' := if streamed then sv.(rows := WithStreams(sv.rows, m.id, m.stdout, m.stderr)) else sv;
      Finish(sv, AfterMessage(agent, m, j), world)
      == if HasStreams(m) || m.status == 2 || j.status in Sources(m.status)
         then Finish(sv', SRead(agent, m, j, Destination(m, j.outputKey)), world) else Final(sv', None)
  {
    hide Finish, Status.CanTransitionTo, Sources, WithStreams;
    FinishIdle(sv, world);
    SourcesAreTransitions(m, j);
    StreamsOnce(sv, agent, m, j, world);
  }

  // The branch on the status, and the write.
  lemma Settles(sv: Server, agent: AgentId, m: JobStatus, j: Job, world: World)
    requires m.id in sv.rows && sv.rows[m.id].status == j.status && sv.rows[m.id].outputKey == j.outputKey
    requires j.status !in {Succeeded, Failed, Canceled, Lost}
    ensures var to := Destination(m, j.outputKey);
      var streamed := HasStreams(m) && !world(SStreams(agent, m, j)).fails;
      var sv' := sv.(rows := sv.rows[m.id := Settled(sv.rows[m.id], m, streamed, Moves(m, agent, j, world))]);
      Finish(sv, AfterMessage(agent, m, j), world)
      == if Moves(m, agent, j, world) && to != Assigned && to != Running then Finish(sv', SCount(agent), world)
         else Final(sv', None)
  {
    hide Finish, Destination, Sources, HasStreams;
    Branch(sv, agent, m, j, world);
    var streamed := HasStreams(m) && !world(SStreams(agent, m, j)).fails;
    var sv' := if streamed then sv.(rows := WithStreams(sv.rows, m.id, m.stdout, m.stderr)) else sv;
    Moved(sv', agent, m, j, world);
    var row' := Settled(sv.rows[m.id], m, streamed, Moves(m, agent, j, world));
    if Moves(m, agent, j, world) {
      assert sv'.rows[m.id := sv'.rows[m.id].(status := Destination(m, j.outputKey))] == sv.rows[m.id := row'];
    } else {
      assert sv'.rows == sv.rows[m.id := row'];
    }
  }

  // A report that is not taken up changes nothing. One that is taken up changes its own row
  // only, and there each column exactly as told: the message if the report has one, the
  // streams if it is about an end or has some, each under its own name, and the status where
  // the table of statuses lets it go. Whatever its calls meet, the message and the streams
  // are stored even if the status is not. A job that ends thereby frees one place of an agent
  // that is heard of.
  lemma ReportRecorded(sv: Server, agent: AgentId, m: JobStatus, world: World)
    ensures var f := Finish(sv, SGet(agent, m), world);
      if !TakenUp(sv, agent, m, world) then f == Final(sv, None)
      else
        m.id in f.sv.rows && var j, j' := sv.rows[m.id], f.sv.rows[m.id];
        var to := Destination(m, j.outputKey);
        var ended := Moves(m, agent, j, world) && to in {Succeeded, Failed, Canceled, Lost};
        var now := world(SCount(agent)).now;
        && f.sent.None? && f.sv.queue == sv.queue && f.sv.rows == sv.rows[m.id := j']
        && j' == j.(message := j'.message, stdout := j'.stdout, stderr := j'.stderr, status := j'.status)
        && j'.message == (if m.message != "" && !world(SMessage(agent, m, j)).fails then m.message else j.message)
        && (if HasStreams(m) && !world(SStreams(agent, m, j)).fails
            then j'.stdout == m.stdout && j'.stderr == m.stderr
            else j'.stdout == j.stdout && j'.stderr == j.stderr)
        && j'.status == (if Moves(m, agent, j, world) then to else j.status)
        && f.sv.agents
           == if ended && agent in sv.agents && now - sv.agents[agent].lastHeartbeat < 60_000
                 && sv.agents[agent].running > 0
              then sv.agents[agent := sv.agents[agent].(running := sv.agents[agent].running - 1, lastHeartbeat := now)]
              else sv.agents
  {
    hide Finish, AfterMessage, Moves, Destination, HasStreams;
    ReportOnce(sv, agent, m, world);
    if TakenUp(sv, agent, m, world) {
      var j := sv.rows[m.id];
      MessageOnce(sv, agent, m, j, world);
      var told := m.message != "" && !world(SMessage(agent, m, j)).fails;
      var noted := j.(message := if told then m.message else j.message);
      var sv' := sv.(rows := sv.rows[m.id := noted]);
      assert sv.rows[m.id := j] == sv.rows;
      assert Finish(sv, SGet(agent, m), world) == Finish(sv', AfterMessage(agent, m, j), world);
      Ends(sv', agent, m, j, world);
    }
  }

  // From the branch on the status to the counter.
  lemma Ends(sv: Server, agent: AgentId, m: JobStatus, j: Job, world: World)
    requires m.id in sv.rows && sv.rows[m.id].status == j.status && sv.rows[m.id].outputKey == j.outputKey
    requires j.status !in {Succeeded, Failed, Canceled, Lost}
    ensures var to := Destination(m, j.outputKey);
      var ended := Moves(m, agent, j, world) && to in {Succeeded, Failed, Canceled, Lost};
      var now := world(SCount(agent)).now;
      var streamed := HasStreams(m) && !world(SStreams(agent, m, j)).fails;
      Finish(sv, AfterMessage(agent, m, j), world)
      == Final(Server(sv.rows[m.id := Settled(sv.rows[m.id], m, streamed, Moves(m, agent, j, world))], sv.queue,
               if ended && agent in sv.agents && now - sv.agents[agent].lastHeartbeat < 60_000
                  && sv.agents[agent].running > 0
               then sv.agents[agent := sv.agents[agent].(running := sv.agents[agent].running - 1, lastHeartbeat := now)]
               else sv.agents), None)
  {
    hide Finish, Settled, HasStreams;
    Settles(sv, agent, m, j, world);
    var streamed := HasStreams(m) && !world(SStreams(agent, m, j)).fails;
    var row' := Settled(sv.rows[m.id], m, streamed, Moves(m, agent, j, world));
    CountOnce(sv.(rows := sv.rows[m.id := row']), agent, world);
  }
}
