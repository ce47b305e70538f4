// What an assignment leaves behind, whichever of its calls fail
// (cloud/internal/gateway/gateway.go, from the chosen job to the send).
module Compensation {
  import opened Options
  import opened JobModel
  import opened Store
  import opened Dispatch
  import opened Handlers

  // The handler's position once it has read a PENDING row.
  function WorkOn(sv: Server, agent: AgentId, id: JobId): Work
    requires id in sv.rows
  {
    Work(agent, id, sv.rows[id], PlanFor(id, sv.rows[id].spec, sv.rows[id].attempt), "")
  }

  // The same work after its attempt number has been raised to 1, and after a lease has been drawn.
  function Raised(w: Work): Work {
    if w.job.attempt < 1 then w.(job := w.job.(attempt := 1)) else w
  }

  function Leased(w: Work, world: World): Work {
    Raised(w).(lease := world(RAssign(Raised(w))).uuid)
  }

  predicate AttemptFails(w: Work, world: World) {
    w.job.attempt < 1 && world(RAttempt(w)).fails
  }

  // Some call up to and including the ASSIGNED write fails.
  predicate FailsBeforeCommit(w: Work, world: World) {
    || AttemptFails(w, world) || world(RUrls(Raised(w))).fails || world(RAssign(Raised(w))).fails
    || world(RRead(Leased(w, world))).fails || world(RWrite(Leased(w, world))).fails
  }

  // The job is ASSIGNED, and then storing its output location or marshalling fails.
  predicate FailsAfterCommit(w: Work, world: World) {
    !FailsBeforeCommit(w, world) && (world(ROutput(Leased(w, world))).fails || world(RMarshal(Leased(w, world))).fails)
  }

  // The failure comes after the owner was written, so that the owner is to be cleared.
  predicate ReachesClear(w: Work, world: World) {
    && FailsBeforeCommit(w, world) && !AttemptFails(w, world)
    && !world(RUrls(Raised(w))).fails && !world(RAssign(Raised(w))).fails
  }

  // The row that a failure before the commit leaves.
  function RolledBack(w: Work, world: World): Job {
    if AttemptFails(w, world) then w.job
    else if !ReachesClear(w, world) then Raised(w).job
    else if world(RClear(Leased(w, world), false)).fails
    then Raised(w).job.(owner := w.agent, lease := Leased(w, world).lease)
    else Raised(w).job.(owner := "", lease := "")
  }

  // Clearing the owner and putting the id back; either may fail.
  lemma Cleared(sv: Server, w: Work, committed: bool, world: World)
    ensures Finish(sv, RClear(w, committed), world)
         == Final(sv.(rows := if world(RClear(w, committed)).fails then sv.rows else WithOwner(sv.rows, w.id, "", ""),
                      queue := PutBack(sv.queue, w.id, world(RRequeue(w.id)).fails)), None)
  {
    hide Finish, WithOwner;
    ClearOnce(sv, w, committed, world);
    RequeueOnce(sv, w.id, world);
    RequeueOnce(sv.(rows := WithOwner(sv.rows, w.id, "", "")), w.id, world);
  }

  lemma Reverted(sv: Server, w: Work, world: World)
    ensures Finish(sv, RRevert(w), world) == Finish(sv, RClear(w, true), world)
  {
    RevertOnce(sv, w, world);
  }

  // From the assignment write on: `sv` is the server with the owner already written.
  lemma Assigning(sv: Server, w: Work, world: World)
    requires w.id in sv.rows && sv.rows[w.id].status == Pending
    ensures Finish(sv, RRead(w), world)
         == if world(RRead(w)).fails || world(RWrite(w)).fails then Finish(sv, RClear(w, false), world)
            else Finish(sv.(rows := WithStatus(sv.rows, w.id, Assigned)), ROutput(w), world)
  {
    hide Finish;
    StampOnce(sv, w, world);
  }

  // From the presigned URLs on, for a job whose attempt number is in order.
  lemma RollsBackRaised(sv: Server, w: Work, world: World)
    requires w.id in sv.rows && sv.rows[w.id] == w.job && w.job.status == Pending
    requires w.job.attempt >= 1 && FailsBeforeCommit(w, world)
    ensures Finish(sv, RUrls(w), world)
         == Final(Server(sv.rows[w.id := RolledBack(w, world)],
                         PutBack(sv.queue, w.id, world(RRequeue(w.id)).fails), sv.agents), None)
  {
    hide Finish, PlanFor;
    UrlsOnce(sv, w, world);
    AssignOnce(sv, w, world);
    RequeueOnce(sv, w.id, world);
    assert sv.rows[w.id := sv.rows[w.id]] == sv.rows;
    if ReachesClear(w, world) {
      var l := Leased(w, world);
      var claimed := sv.(rows := WithOwner(sv.rows, w.id, w.agent, l.lease));
      Assigning(claimed, l, world);
      Cleared(claimed, l, false, world);
      assert WithOwner(claimed.rows, w.id, "", "") == sv.rows[w.id := w.job.(owner := "", lease := "")];
    }
  }

  // Whatever else fails, a failure before the commit leaves the job PENDING, its row as it
  // was but for an attempt raised to 1 and an owner cleared, or left if clearing failed too;
  // the id is at the tail of the queue unless that failed; the counters and the other rows
  // are untouched, and nothing is sent.
  lemma RollsBack(sv: Server, agent: AgentId, id: JobId, world: World)
    requires id in sv.rows && sv.rows[id].status == Pending
    requires FailsBeforeCommit(WorkOn(sv, agent, id), world)
    ensures var w := WorkOn(sv, agent, id);
      && Finish(sv, Begin(w), world)
         == Final(Server(sv.rows[id := RolledBack(w, world)],
                         PutBack(sv.queue, id, world(RRequeue(id)).fails), sv.agents), None)
      && RolledBack(w, world).status == Pending
  {
    hide Finish, PlanFor;
    var w := WorkOn(sv, agent, id);
    AttemptOnce(sv, w, world);
    RequeueOnce(sv, id, world);
    if AttemptFails(w, world) {
      assert sv.rows[id := sv.rows[id]] == sv.rows;
    } else {
      var raised := if w.job.attempt < 1 then sv.(rows := WithAttempt(sv.rows, id, 1)) else sv;
      assert raised.rows == sv.rows[id := Raised(w).job];
      RollsBackRaised(raised, Raised(w), world);
      assert raised.rows[id := RolledBack(w, world)] == sv.rows[id := RolledBack(w, world)];
    }
  }

  // The job is available again, unowned and at the queue's tail, exactly if the compensating
  // calls that are made go through.
  lemma RestoresExactly(sv: Server, agent: AgentId, id: JobId, world: World)
    requires id != "" && agent != "" && id in sv.rows && sv.rows[id].status == Pending && sv.rows[id].owner == ""
    requires FailsBeforeCommit(WorkOn(sv, agent, id), world)
    ensures var w := WorkOn(sv, agent, id); var f := Finish(sv, Begin(w), world);
      && id in f.sv.rows
      && (f.sv.rows[id].owner == "" && f.sv.queue == sv.queue + [id]
          <==> !world(RRequeue(id)).fails && !(ReachesClear(w, world) && world(RClear(Leased(w, world), false)).fails))
  {
    hide Finish, PlanFor;
    RollsBack(sv, agent, id, world);
    assert |sv.queue + [id]| == |sv.queue| + 1;
  }

  // Where the job stands once the ASSIGNED write has gone through, `sv` having its owner.
  ghost predicate Ended(sv: Server, w: Work, world: World, f: Final) {
    && w.id in sv.rows && w.id in f.sv.rows && f.sv.rows[w.id].status == Assigned
    && (forall i | i in sv.rows && i != w.id :: i in f.sv.rows && f.sv.rows[i] == sv.rows[i])
    && if world(ROutput(w)).fails || world(RMarshal(w)).fails
       then && f.sent.None? && f.sv.agents == sv.agents
            && f.sv.rows[w.id].owner == (if world(RClear(w, true)).fails then sv.rows[w.id].owner else "")
            && f.sv.queue == PutBack(sv.queue, w.id, world(RRequeue(w.id)).fails)
       else && f.sent == Some(Assignment(w)) && f.sv.rows[w.id].owner == sv.rows[w.id].owner && f.sv.queue == sv.queue
            && f.sv.agents == Counted(sv.agents, w.agent, 1, world(RCount(w)).now)
  }

  lemma OwnerOnly(rows: Rows, id: JobId, owner: AgentId, lease: string)
    requires id in rows
    ensures var rows' := WithOwner(rows, id, owner, lease);
      id in rows' && rows'[id].status == rows[id].status && rows'[id].owner == owner
    ensures forall i | i in rows && i != id ::
              i in WithOwner(rows, id, owner, lease) && WithOwner(rows, id, owner, lease)[i] == rows[i]
  {}

  lemma EndsAfterRaise(sv: Server, w: Work, world: World)
    requires w.id in sv.rows && sv.rows[w.id].status == Pending && w.job.attempt >= 1
    requires !FailsBeforeCommit(w, world)
    ensures var l := Leased(w, world);
      Ended(sv.(rows := WithOwner(sv.rows, w.id, w.agent, l.lease)), l, world, Finish(sv, RUrls(w), world))
  {
    hide Finish, PlanFor, Assignment, Ended, WithOwner;
    var l := Leased(w, world);
    var claimed := sv.(rows := WithOwner(sv.rows, w.id, w.agent, l.lease));
    UrlsOnce(sv, w, world);
    AssignOnce(sv, w, world);
    assert claimed.rows[w.id].status == sv.rows[w.id].status by { OwnerOnly(sv.rows, w.id, w.agent, l.lease); }
    EndsLeased(claimed, l, world);
  }

  lemma EndsLeased(sv: Server, l: Work, world: World)
    requires l.id in sv.rows && sv.rows[l.id].status == Pending
    requires !world(RRead(l)).fails && !world(RWrite(l)).fails
    ensures Ended(sv, l, world, Finish(sv, RRead(l), world))
  {
    hide Finish, PlanFor, Assignment, Counted;
    Assigning(sv, l, world);
    var stamped := sv.(rows := WithStatus(sv.rows, l.id, Assigned));
    OutputOnce(stamped, l, world);
    if world(ROutput(l)).fails {
      Reverted(stamped, l, world);
      Cleared(stamped, l, true, world);
    } else {
      var placed := stamped.(rows := WithOutput(stamped.rows, l.id, l.plan.key, l.plan.prefix));
      MarshalOnce(placed, l, world);
      if world(RMarshal(l)).fails {
        Reverted(placed, l, world);
        Cleared(placed, l, true, world);
      }
    }
  }

  // Without a failure before the commit the job ends ASSIGNED. If a later call fails it is
  // not sent, loses its owner unless clearing fails too, and is put back in the queue unless
  // that fails; otherwise it belongs to the agent, is counted, and the message goes out.
  lemma CommitsOrStrands(sv: Server, agent: AgentId, id: JobId, world: World)
    requires id in sv.rows && sv.rows[id].status == Pending
    requires !FailsBeforeCommit(WorkOn(sv, agent, id), world)
    ensures var w := WorkOn(sv, agent, id); var f := Finish(sv, Begin(w), world); var l := Leased(w, world);
      && id in f.sv.rows && f.sv.rows[id].status == Assigned
      && (forall i | i in sv.rows && i != id :: i in f.sv.rows && f.sv.rows[i] == sv.rows[i])
      && if FailsAfterCommit(w, world)
         then && f.sent.None? && f.sv.agents == sv.agents
              && f.sv.rows[id].owner == (if world(RClear(l, true)).fails then agent else "")
              && f.sv.queue == PutBack(sv.queue, id, world(RRequeue(id)).fails)
         else && f.sent == Some(Assignment(l)) && f.sv.rows[id].owner == agent && f.sv.queue == sv.queue
              && f.sv.agents == Counted(sv.agents, agent, 1, world(RCount(l)).now)
  {
    hide Finish, PlanFor, Assignment, Counted, WithOwner;
    var w := WorkOn(sv, agent, id);
    var raised := if w.job.attempt < 1 then sv.(rows := WithAttempt(sv.rows, id, 1)) else sv;
    AttemptOnce(sv, w, world);
    EndsAfterRaise(raised, Raised(w), world);
    OwnerOnly(raised.rows, id, agent, Leased(w, world).lease);
  }

  // Whichever calls fail: the job ends ASSIGNED exactly without a failure before the commit;
  // ASSIGNED and not sent exactly after a failure behind it; and ASSIGNED without an owner
  // exactly if, moreover, the owner could be cleared. Otherwise the job names an agent that
  // was never told.
  lemma StrandsExactly(sv: Server, agent: AgentId, id: JobId, world: World)
    requires agent != "" && id in sv.rows && sv.rows[id].status == Pending
    ensures var w := WorkOn(sv, agent, id); var f := Finish(sv, Begin(w), world);
      && id in f.sv.rows
      && (f.sv.rows[id].status == Assigned <==> !FailsBeforeCommit(w, world))
      && (f.sv.rows[id].status == Assigned && f.sent.None? <==> FailsAfterCommit(w, world))
      && (f.sv.rows[id].status == Assigned && f.sv.rows[id].owner == ""
          <==> FailsAfterCommit(w, world) && !world(RClear(Leased(w, world), true)).fails)
  {
    hide Finish, PlanFor, Assignment, Counted;
    if FailsBeforeCommit(WorkOn(sv, agent, id), world) {
      RollsBack(sv, agent, id, world);
    } else {
      CommitsOrStrands(sv, agent, id, world);
    }
  }
}
