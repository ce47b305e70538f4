// The gateway's message handlers as the objects they are, each proved to do what
// its thread does when it runs without interruption (cloud/internal/gateway/gateway.go).
module Gateway {
  import opened Options
  import opened JobModel
  import opened Messages
  import opened Store
  import Queue
  import opened Registry
  import opened Dispatch
  import opened DispatchRows
  import opened Handlers
  import opened Compensation
  import opened Effects

  const HEARTBEAT_INTERVAL_SEC := 20

  datatype ToAgent = RegisterAck(heartbeatIntervalSec: int) | HeartbeatAck | Assign(m: JobAssigned)

  // One agent connection and the messages queued on it for sending.
  class AgentConnection {
    var agentId: AgentId
    var outbox: seq<ToAgent>

    constructor ()
      ensures agentId == "" && outbox == []
    {
      agentId := "";
      outbox := [];
    }
  }

  class Gateway {
    const store: JobStore
    const queue: Queue.JobQueue
    const registry: AgentRegistry
    var connections: map<AgentId, AgentConnection>

    constructor (store: JobStore, queue: Queue.JobQueue, registry: AgentRegistry)
      ensures this.store == store && this.queue == queue && this.registry == registry && connections == map[]
    {
      this.store, this.queue, this.registry := store, queue, registry;
      connections := map[];
    }

    ghost predicate Valid()
      reads this, registry
    {
      registry.Valid()
    }

    ghost function View(): Server
      reads this, store, queue, registry, registry.Records()
    {
      Server(store.rows, queue.items, registry.View())
    }

    method HandleRegister(conn: AgentConnection, agentId: AgentId, hostname: string, max: int, now: int,
        marshalFails: bool)
      requires Valid()
      modifies this, conn, registry, registry.Records()
      ensures Valid()
      ensures agentId == "" ==>
                && View() == old(View()) && connections == old(connections)
                && conn.agentId == old(conn.agentId) && conn.outbox == old(conn.outbox)
      ensures agentId != "" ==>
                && conn.agentId == agentId && connections == old(connections)[agentId := conn]
                && View() == old(View()).(agents := Registered(old(View()).agents, agentId, hostname, Int32(max), now))
                && conn.outbox == old(conn.outbox) + if marshalFails then [] else [RegisterAck(20)]
    {
      hide Registered, Int32;
      if agentId == "" { return; }
      conn.agentId := agentId;
      connections := connections[agentId := conn];
      assert registry.View() == old(registry.View());
      registry.Register(agentId, hostname, Int32(max), now);
      if marshalFails { return; }
      conn.outbox := conn.outbox + [RegisterAck(HEARTBEAT_INTERVAL_SEC)];
    }

    method HandleHeartbeat(conn: AgentConnection, agentId: AgentId, paused: bool, running: int, now: int,
        marshalFails: bool)
      requires Valid()
      modifies conn, registry.Records()
      ensures Valid() && conn.agentId == old(conn.agentId)
      ensures conn.agentId == "" || agentId != conn.agentId ==> View() == old(View()) && conn.outbox == old(conn.outbox)
      ensures conn.agentId != "" && agentId == conn.agentId ==>
                && View() == old(View()).(agents := Beaten(old(View()).agents, agentId, paused, running, now))
                && conn.outbox == old(conn.outbox) + if marshalFails then [] else [HeartbeatAck]
    {
      if conn.agentId == "" { return; }
      if agentId != conn.agentId { return; }
      registry.UpdateHeartbeat(agentId, paused, running, now);
      if marshalFails { return; }
      conn.outbox := conn.outbox + [HeartbeatAck];
    }

    // The dequeue loop; `taken` counts the entries it removed.
    method TakePending(agent: AgentId, world: World) returns (id: JobId, j: Option<Job>, ghost taken: nat)
      modifies queue
      ensures (taken, j.Some?) == Pick(store.rows, old(queue.items), agent, 0, world)
      ensures taken <= |old(queue.items)| && queue.items == old(queue.items)[taken..]
      ensures j.Some? ==>
                taken > 0 && id == old(queue.items)[taken - 1] && id in store.rows && j.value == store.rows[id]
    {
      hide Finish;
      ghost var before := queue.items;
      taken := 0;
      id, j := "", None;
      ghost var broke := false;
      for attempt := 0 to MAX_DEQUEUE_ATTEMPTS
        invariant taken == attempt <= |before| && queue.items == before[taken..]
        invariant !broke
        invariant j.Some? ==> j.value.status != Pending
        invariant var rest := Pick(store.rows, queue.items, agent, attempt, world);
          Pick(store.rows, before, agent, 0, world) == (taken + rest.0, rest.1)
      {
        var next := queue.Dequeue(world(RDequeue(agent, attempt)).fails);
        if next.Empty? { return id, None, taken; }
        if next.Broken? { return id, None, taken; }
        id := next.id;
        taken := taken + 1;
        assert queue.items == before[taken..];
        var found := store.Get(id, world(RGet(agent, attempt, id)).fails);
        if found.Missed? {
          j := None;
          continue;
        }
        j := Some(found.job);
        if j.value.status != Pending { continue; }
        broke := true;
        break;
      }
      // the test after the loop finds out exactly whether the loop was left by its break
      assert (j.None? || j.value.status != Pending) <==> !broke;
      if j.None? || j.value.status != Pending {
        return id, None, taken;
      }
    }

    // Puts an id back; a failure to do so is ignored.
    method Requeue(id: JobId, world: World)
      modifies queue
      ensures queue.items == PutBack(old(queue.items), id, world(RRequeue(id)).fails)
    {
      var _ := queue.Enqueue(id, world(RRequeue(id)).fails);
    }

    // Clears the owner and puts the job back; failures to do so are ignored.
    method GiveBack(w: Work, ghost committed: bool, clearFails: bool, world: World, ghost agents: Agents)
      requires clearFails == world(RClear(w, committed)).fails
      modifies store, queue
      ensures Finish(Server(old(store.rows), old(queue.items), agents), RClear(w, committed), world)
           == Final(Server(store.rows, queue.items, agents), None)
    {
      hide Finish, PlanFor, Assignment;
      ClearOnce(Server(store.rows, queue.items, agents), w, committed, world);
      var _ := store.UpdateAssignment(w.id, "", "", clearFails);
      RequeueOnce(Server(store.rows, queue.items, agents), w.id, world);
      Requeue(w.id, world);
    }

    // From the chosen row up to the moment the job is ASSIGNED; otherwise the job is given back.
    method Commit(agent: AgentId, id: JobId, j: Job, world: World, ghost agents: Agents)
      returns (w: Work, committed: bool)
      modifies store, queue
      ensures var w0 := Work(agent, id, j, PlanFor(id, j.spec, j.attempt), "");
        Finish(Server(old(store.rows), old(queue.items), agents), Begin(w0), world)
        == if committed then Finish(Server(store.rows, queue.items, agents), ROutput(w), world)
           else Final(Server(store.rows, queue.items, agents), None)
      ensures w.agent == agent && w.id == id && w.job.spec == j.spec && w.plan == PlanFor(id, j.spec, j.attempt)
    {
      hide Finish, PlanFor, Assignment;
      w := Work(agent, id, j, PlanFor(id, j.spec, j.attempt), "");
      committed := false;
      if j.attempt < 1 {
        AttemptOnce(Server(store.rows, queue.items, agents), w, world);
        RequeueOnce(Server(store.rows, queue.items, agents), id, world);
        var error := store.UpdateAttemptID(id, 1, world(RAttempt(w)).fails);
        if error.Some? {
          Requeue(id, world);
          return;
        }
        w := w.(job := j.(attempt := 1));
      }
      committed, w := Stamp(w, world, agents);
    }

    // From the presigned URLs to the ASSIGNED write.
    method Stamp(w0: Work, world: World, ghost agents: Agents) returns (committed: bool, w: Work)
      modifies store, queue
      ensures Finish(Server(old(store.rows), old(queue.items), agents), RUrls(w0), world)
           == if committed then Finish(Server(store.rows, queue.items, agents), ROutput(w), world)
              else Final(Server(store.rows, queue.items, agents), None)
      ensures w == w0.(lease := w.lease)
    {
      hide Finish, PlanFor, Assignment;
      w := w0;
      committed := false;
      UrlsOnce(Server(store.rows, queue.items, agents), w, world);
      RequeueOnce(Server(store.rows, queue.items, agents), w.id, world);
      if world(RUrls(w)).fails {
        Requeue(w.id, world);
        return;
      }
      AssignOnce(Server(store.rows, queue.items, agents), w, world);
      var lease := world(RAssign(w)).uuid;
      var error := store.UpdateAssignment(w.id, w.agent, lease, world(RAssign(w)).fails);
      if error.Some? {
        Requeue(w.id, world);
        return;
      }
      w := w.(lease := lease);
      StampOnce(Server(store.rows, queue.items, agents), w, world);
      error := store.UpdateStatus(w.id, Assigned, world(RRead(w)).fails, world(RWrite(w)).fails);
      if error.Some? {
        GiveBack(w, false, world(RClear(w, false)).fails, world, agents);
        return;
      }
      committed := true;
    }

    // After the commit: a failure here cannot take the ASSIGNED status back.
    method Revert(w: Work, world: World, ghost agents: Agents)
      modifies store, queue
      ensures Finish(Server(old(store.rows), old(queue.items), agents), RRevert(w), world)
           == Final(Server(store.rows, queue.items, agents), None)
    {
      hide Finish, PlanFor, Assignment;
      RevertOnce(Server(store.rows, queue.items, agents), w, world);
      var _ := store.UpdateStatus(w.id, Pending, world(RRevert(w)).fails, false);
      GiveBack(w, true, world(RClear(w, true)).fails, world, agents);
    }

    // Stores the output location and marshals the message; `ready` says that it can be counted and sent.
    method Place(w: Work, world: World, ghost agents: Agents) returns (ready: bool)
      modifies store, queue
      ensures Finish(Server(old(store.rows), old(queue.items), agents), ROutput(w), world)
           == if ready
              then Final(Server(store.rows, queue.items, Counted(agents, w.agent, 1, world(RCount(w)).now)),
                         Some(Assignment(w)))
              else Final(Server(store.rows, queue.items, agents), None)
    {
      hide Finish, PlanFor, Assignment;
      OutputOnce(Server(store.rows, queue.items, agents), w, world);
      var error := store.UpdateOutput(w.id, w.plan.key, w.plan.prefix, world(ROutput(w)).fails);
      if error.Some? {
        Revert(w, world, agents);
        return false;
      }
      MarshalOnce(Server(store.rows, queue.items, agents), w, world);
      if world(RMarshal(w)).fails {
        Revert(w, world, agents);
        return false;
      }
      return true;
    }

    // Everything between the capacity check and the counter.
    method Prepare(agent: AgentId, world: World, ghost agents: Agents) returns (w: Option<Work>)
      modifies store, queue
      ensures Finish(Server(old(store.rows), old(queue.items), agents), RDequeue(agent, 0), world)
           == if w.Some?
              then Final(Server(store.rows, queue.items, Counted(agents, agent, 1, world(RCount(w.value)).now)),
                         Some(Assignment(w.value)))
              else Final(Server(store.rows, queue.items, agents), None)
    {
      hide Finish, PlanFor, Assignment;
      FinishPicks(Server(store.rows, queue.items, agents), agent, 0, world);
      ghost var taken;
      var id, j;
      id, j, taken := TakePending(agent, world);
      if j.None? { return None; }
      var work, committed := Commit(agent, id, j.value, world, agents);
      if !committed { return None; }
      var ready := Place(work, world, agents);
      if !ready { return None; }
      return Some(work);
    }

    // Adjusts the running-jobs counter through the record obtained earlier.
    method Count(agent: AgentId, info: AgentInfo, change: int, now: int)
      requires Valid() && agent in registry.agents && registry.agents[agent] == info
      modifies registry.Records()
      ensures registry.View() == Counted(old(registry.View()), agent, change, now)
    {
      registry.UpdateHeartbeat(agent, info.paused, info.running + change, now);
    }

    // The capacity check: the agent is online, not paused and below its limit.
    method Admit(agent: AgentId, now: int) returns (info: AgentInfo?)
      requires Valid()
      ensures var known := Lookup(registry.View(), agent, now);
        info == null <==> known.None? || known.value.paused || known.value.running >= known.value.max
      ensures info != null ==> agent in registry.agents && registry.agents[agent] == info
    {
      var online;
      info, online := registry.GetAgent(agent, now);
      if !online { return null; }
      if info.paused { return null; }
      if info.running >= info.max { return null; }
    }

    // The check and everything that follows it, short of the counter and the send.
    method Reserve(agent: AgentId, world: World, ghost agents: Agents) returns (info: AgentInfo?, w: Option<Work>)
      requires Valid() && agents == registry.View()
      modifies store, queue
      ensures Finish(Server(old(store.rows), old(queue.items), agents), RCheck(agent), world)
           == if w.Some?
              then Final(Server(store.rows, queue.items, Counted(agents, agent, 1, world(RCount(w.value)).now)),
                         Some(Assignment(w.value)))
              else Final(Server(store.rows, queue.items, agents), None)
      ensures w.Some? ==> info != null && agent in registry.agents && registry.agents[agent] == info
    {
      hide Finish, PlanFor, Assignment;
      w := None;
      CheckOnce(Server(store.rows, queue.items, agents), agent, world);
      info := Admit(agent, world(RCheck(agent)).now);
      if info != null {
        w := Prepare(agent, world, agents);
      }
    }

    // The handler for an agent that has identified itself; returns the message to send.
    method Serve(agent: AgentId, world: World) returns (sent: Option<JobAssigned>)
      requires Valid()
      modifies store, queue, registry.Records()
      ensures Valid()
      ensures Final(View(), sent) == Finish(old(View()), RCheck(agent), world)
    {
      hide Finish, PlanFor, Assignment;
      ghost var agents := registry.View();
      var info, w := Reserve(agent, world, agents);
      if w.None? { return None; }
      Count(agent, info, 1, world(RCount(w.value)).now);
      sent := Some(Assignment(w.value));
    }

    method HandleRequestJob(conn: AgentConnection, envelope: AgentId, payload: AgentId, world: World)
      requires Valid()
      modifies store, queue, registry.Records(), conn
      ensures Valid() && conn.agentId == old(conn.agentId)
      ensures (payload != "" && payload != envelope) || envelope == "" ==>
                View() == old(View()) && conn.outbox == old(conn.outbox)
      ensures !((payload != "" && payload != envelope) || envelope == "") ==>
                var f := Finish(old(View()), RCheck(envelope), world);
                && View() == f.sv
                && (f.sent.None? ==> conn.outbox == old(conn.outbox))
                && (f.sent.Some? ==> conn.outbox == old(conn.outbox) + [Assign(f.sent.value)])
      // an eligible agent finds the first waiting job in its outbox, exactly if nothing fails
      ensures !((payload != "" && payload != envelope) || envelope == "") ==>
                forall n: nat | Serves(old(View()), envelope, n, world) ::
                  exists m :: conn.outbox == old(conn.outbox) + [Assign(m)] && m.id == old(queue.items)[n]
                    && m.id in store.rows && Agrees(store.rows, m) && store.rows[m.id].status == Assigned
                    && store.rows[m.id].owner == envelope
      ensures (forall n: nat :: !Serves(old(View()), envelope, n, world)) ==> conn.outbox == old(conn.outbox)
    {
      hide Finish, Agrees, Finds, FailsBeforeCommit, FailsAfterCommit;
      if payload != "" && payload != envelope { return; }
      if envelope == "" { return; }
      ghost var before := View();
      var sent := Serve(envelope, world);
      SendsExactly(before, envelope, world);
      forall n: nat | Serves(before, envelope, n, world)
        ensures sent.Some? && n < |before.queue| && sent.value.id == before.queue[n]
        ensures sent.value.id in store.rows && Agrees(store.rows, sent.value)
        ensures store.rows[sent.value.id].status == Assigned && store.rows[sent.value.id].owner == envelope
      {
        ServedAgrees(before, envelope, n, world);
      }
      if sent.Some? { conn.outbox := conn.outbox + [Assign(sent.value)]; }
    }

    // Moves the job to a status; `ended` says that it has thereby ended.
    method Move(agent: AgentId, m: JobStatus, j: Job, to: Status, world: World, ghost agents: Agents)
      returns (ended: bool)
      requires to.IsValid()
      modifies store
      ensures Finish(Server(old(store.rows), queue.items, agents), SRead(agent, m, j, to), world)
           == if ended then Finish(Server(store.rows, queue.items, agents), SCount(agent), world)
              else Final(Server(store.rows, queue.items, agents), None)
    {
      hide Finish, PlanFor, Assignment;
      MoveOnce(Server(store.rows, queue.items, agents), agent, m, j, to, world);
      var readFails, writeFails := world(SRead(agent, m, j, to)).fails, world(SWrite(agent, m, j, to)).fails;
      var error := store.UpdateStatus(m.id, to, readFails, writeFails);
      FinishIdle(Server(store.rows, queue.items, agents), world);
      return error.None? && to.IsTerminal();
    }

    // The branch on the reported status.
    method Settle(agent: AgentId, m: JobStatus, j: Job, world: World, ghost agents: Agents) returns (ended: bool)
      modifies store
      ensures Finish(Server(old(store.rows), queue.items, agents), AfterMessage(agent, m, j), world)
           == if ended then Finish(Server(store.rows, queue.items, agents), SCount(agent), world)
              else Final(Server(store.rows, queue.items, agents), None)
    {
      hide Finish, PlanFor, Assignment;
      StreamsOnce(Server(store.rows, queue.items, agents), agent, m, j, world);
      var newStatus := StatusFromProto(m.status);
      if newStatus == Running {
        if m.stdout != "" || m.stderr != "" {
          var _ := store.UpdateStdoutStderr(m.id, m.stdout, m.stderr, world(SStreams(agent, m, j)).fails);
        }
        ended := Move(agent, m, j, Running, world, agents);
      } else if newStatus == Succeeded {
        var _ := store.UpdateStdoutStderr(m.id, m.stdout, m.stderr, world(SStreams(agent, m, j)).fails);
        if m.outputKey != "" {
          if j.outputKey == "" {
            ended := Move(agent, m, j, Failed, world, agents);
            return;
          }
          if m.outputKey != j.outputKey {
            ended := Move(agent, m, j, Failed, world, agents);
            return;
          }
        }
        ended := Move(agent, m, j, Succeeded, world, agents);
      } else if newStatus == Failed {
        var _ := store.UpdateStdoutStderr(m.id, m.stdout, m.stderr, world(SStreams(agent, m, j)).fails);
        ended := Move(agent, m, j, Failed, world, agents);
      } else {
        FinishIdle(Server(store.rows, queue.items, agents), world);
        if !j.status.CanTransitionTo(newStatus) { return false; }
        ended := Move(agent, m, j, newStatus, world, agents);
      }
    }

    // Reads the job, checks the report against it, and applies it.
    method Judge(agent: AgentId, m: JobStatus, world: World, ghost agents: Agents) returns (ended: bool)
      modifies store
      ensures Finish(Server(old(store.rows), queue.items, agents), SGet(agent, m), world)
           == if ended then Finish(Server(store.rows, queue.items, agents), SCount(agent), world)
              else Final(Server(store.rows, queue.items, agents), None)
    {
      hide Finish, PlanFor, Assignment;
      ReportOnce(Server(store.rows, queue.items, agents), agent, m, world);
      var found := store.Get(m.id, world(SGet(agent, m)).fails);
      if found.Missed? { return false; }
      var j := found.job;
      if j.owner != agent { return false; }
      if m.attempt != j.attempt { return false; }
      if !StatusFromProto(m.status).IsValid() { return false; }
      if j.status.IsTerminal() { return false; }
      if m.message != "" {
        MessageOnce(Server(store.rows, queue.items, agents), agent, m, j, world);
        var _ := store.UpdateMessage(m.id, m.message, world(SMessage(agent, m, j)).fails);
      }
      ended := Settle(agent, m, j, world, agents);
    }

    // A job of the agent has ended.
    method Release(agent: AgentId, world: World)
      requires Valid()
      modifies registry.Records()
      ensures Final(View(), None) == Finish(old(View()), SCount(agent), world)
    {
      hide Finish, PlanFor, Assignment;
      CountOnce(View(), agent, world);
      var info, online := registry.GetAgent(agent, world(SCount(agent)).now);
      if info != null && info.running > 0 {
        Count(agent, info, -1, world(SCount(agent)).now);
      }
    }

    method HandleJobStatus(conn: AgentConnection, envelope: AgentId, m: JobStatus, world: World)
      requires Valid()
      modifies store, registry.Records()
      ensures Valid()
      ensures envelope == "" || conn.agentId != envelope || m.id == "" ==> View() == old(View())
      ensures !(envelope == "" || conn.agentId != envelope || m.id == "") ==>
                Final(View(), None) == Finish(old(View()), SGet(envelope, m), world)
      // a report that is taken up puts its message and its streams where they belong
      ensures !(envelope == "" || conn.agentId != envelope || m.id == "")
              && TakenUp(old(View()), envelope, m, world) ==>
                var j := old(store.rows)[m.id];
                && m.id in store.rows && store.rows == old(store.rows)[m.id := store.rows[m.id]]
                && (!world(SMessage(envelope, m, j)).fails ==>
                      store.rows[m.id].message == if m.message != "" then m.message else j.message)
                && ((m.status == 3 || m.status == 4) && !world(SStreams(envelope, m, j)).fails ==>
                      store.rows[m.id].stdout == m.stdout && store.rows[m.id].stderr == m.stderr)
    {
      hide Finish, Moves, Destination;
      ReportRecorded(View(), envelope, m, world);
      if envelope == "" { return; }
      if conn.agentId != envelope { return; }
      if m.id == "" { return; }
      ghost var agents := registry.View();
      var ended := Judge(envelope, m, world, agents);
      if ended {
        assert View() == Server(store.rows, queue.items, agents);
        Release(envelope, world);
      }
    }
  }
}
