// An accepted job as both sides see it: the stored status followed by the
// reports in hand, on the way and still to come is a legal path, so no report of
// an accepted job is refused and the outcome recorded is the one reported.
module ProtocolFlow {
  import opened Options
  import opened JobModel
  import opened Messages
  import opened Store
  import opened Registry
  import opened Dispatch
  import opened DispatchTokens
  import opened DispatchRows
  import opened Protocol

  const MAX_INT32 := 0x7FFF_FFFF

  predicate IsStart(m: JobStatus) {
    m.status == STATUS_RUNNING
  }

  predicate IsEnd(m: JobStatus) {
    m.status == STATUS_SUCCEEDED || m.status == STATUS_FAILED
  }

  // The report on job id that a status handler has taken up but not yet written.
  function InHand(pc: Pc, id: JobId): seq<JobStatus> {
    match pc
    case SGet(_, m) => if m.id == id then [m] else []
    case SMessage(_, m, _) => if m.id == id then [m] else []
    case SStreams(_, m, _) => if m.id == id then [m] else []
    case SRead(_, m, _, _) => if m.id == id then [m] else []
    case SWrite(_, m, _, _) => if m.id == id then [m] else []
    case _ => []
  }

  // The reports on job id in a channel, in order.
  function Reports(up: seq<Up>, id: JobId): seq<JobStatus> {
    if up == [] then []
    else (if up[0].StatusUp? && up[0].m.id == id then [up[0].m] else []) + Reports(up[1..], id)
  }

  function Remaining(pc: Pc, up: seq<Up>, id: JobId): seq<JobStatus> {
    InHand(pc, id) + Reports(up, id)
  }

  predicate Fits(m: JobStatus, row: Job) {
    m.attempt == row.attempt && (m.status == STATUS_SUCCEEDED ==> m.outputKey == "" || m.outputKey == row.outputKey)
  }

  predicate Ends(m: JobStatus, row: Job, last: JobStatus) {
    m == last && Fits(m, row)
  }

  // Where the row of an accepted job stands against the reports not yet applied.
  predicate Flow(row: Job, rest: seq<JobStatus>, phase: Phase) {
    match phase
    case TurnedAway => row.status == Assigned && forall n | 0 <= n < |rest| :: rest[n].status == STATUS_FAILED
    case Fresh => row.status == Assigned && rest == []
    case Busy =>
      || (row.status == Assigned && |rest| == 1 && IsStart(rest[0]) && Fits(rest[0], row))
      || (row.status == Running && rest == [])
    case Reporting(last) => Finished(row, rest, last)
    case Gone(last) => Finished(row, rest, last)
  }

  predicate Finished(row: Job, rest: seq<JobStatus>, last: JobStatus) {
    && IsEnd(last) && Fits(last, row)
    && (|| (row.status == Assigned && |rest| == 2 && IsStart(rest[0]) && Fits(rest[0], row) && Ends(rest[1], row, last))
        || (row.status == Running && |rest| == 1 && Ends(rest[0], row, last))
        || (row.status == StatusFromProto(last.status) && rest == []))
  }

  // Jobs that were accepted are followed only where every report is known to be applied
  // (`strict`); jobs that were turned away always.
  predicate Follows(strict: bool, row: Job, rest: seq<JobStatus>, phase: Phase) {
    strict || phase.TurnedAway? ==> Flow(row, rest, phase)
  }

  // The status a handler is about to write is the one its report calls for.
  predicate HandOk(pc: Pc) {
    match pc
    case SRead(_, m, j, to) => to == Target(m, j)
    case SWrite(_, m, j, to) => to == Target(m, j)
    case _ => true
  }

  // All jobs of an agent, given the rows, its handler, its channels.
  ghost predicate AgentFlow(
    strict: bool, rows: Rows, pc: Pc, up: seq<Up>, down: seq<JobAssigned>, jobs: seq<Delivery>)
  {
    && HandOk(pc)
    && (forall k | 0 <= k < |jobs| ::
          jobs[k].m.id in rows && Follows(strict, rows[jobs[k].m.id], Remaining(pc, up, jobs[k].m.id), jobs[k].phase))
    && (forall k | 0 <= k < |down| ::
          down[k].id in rows && rows[down[k].id].status == Assigned && Remaining(pc, up, down[k].id) == [])
  }

  ghost predicate FlowOf(strict: bool, s: Sys, a: AgentId) {
    AgentFlow(strict, s.d.sv.rows, PcOf(s.d, Conn(a)), UpOf(s, a), DownOf(s, a), JobsOf(s, a))
  }

  ghost predicate SmallAttempts(d: State) {
    && (forall id | id in d.sv.rows :: d.sv.rows[id].attempt <= MAX_INT32)
    && (forall t | t in d.threads && d.threads[t].CCreate? :: d.threads[t].job.attempt <= MAX_INT32)
  }

  ghost predicate FlowInv(strict: bool, s: Sys) {
    SysInv(s) && (strict ==> SmallAttempts(s.d)) && forall a :: FlowOf(strict, s, a)
  }

  // A call whose failure loses a report: reading the job, and the status's read and write.
  predicate Decisive(pc: Pc) {
    pc.SGet? || pc.SRead? || pc.SWrite?
  }

  // The store answers these calls of a status handler, and attempt numbers fit 32 bits.
  predicate Gentle(s: Sys, act: Act) {
    match act
    case Call(t, env) => Decisive(PcOf(s.d, t)) ==> !env.fails
    case Post(_, job) => job.attempt <= MAX_INT32
    case _ => true
  }

  lemma {:induction false} ReportsAppend(up: seq<Up>, x: Up, id: JobId)
    ensures Reports(up + [x], id) == Reports(up, id) + (if x.StatusUp? && x.m.id == id then [x.m] else [])
  {
    if up == [] {
      assert up + [x] == [x];
    } else {
      assert (up + [x])[1..] == up[1..] + [x];
      ReportsAppend(up[1..], x, id);
    }
  }

  lemma {:induction false} NoReports(up: seq<Up>, dispatched: map<JobId, Thread>, a: AgentId, id: JobId)
    requires ReportsSent(up, dispatched, a) && id !in dispatched
    ensures Reports(up, id) == []
  {
    if up != [] {
      assert up[0].StatusUp? ==> Sent(dispatched, Conn(a), a, up[0].m.id);
      forall k | 0 <= k < |up[1..]| && up[1..][k].StatusUp? ensures Sent(dispatched, Conn(a), a, up[1..][k].m.id) {
        assert up[k + 1].StatusUp?;
      }
      NoReports(up[1..], dispatched, a, id);
    }
  }

  // The handler of the agent applies a report.
  lemma ApplyReport(sv: Server, dispatched: map<JobId, Thread>, a: AgentId, pc: Pc, env: Env, rest: seq<JobStatus>,
      id: JobId, phase: Phase)
    requires PcInv(sv.rows, dispatched, Conn(a), pc) && HandOk(pc) && IsReport(pc) && (Decisive(pc) ==> !env.fails)
    requires id in sv.rows && sv.rows[id].owner == a && Touched(pc) == Some(id) && !phase.TurnedAway?
    requires Flow(sv.rows[id], InHand(pc, id) + rest, phase)
    ensures var o := Advance(sv, pc, env);
      && HandOk(o.pc) && id in o.sv.rows
      && Flow(o.sv.rows[id], InHand(o.pc, id) + rest, phase)
      && (pc.SWrite? || InHand(o.pc, id) == InHand(pc, id))
  {
    hide Advance;
    var all := InHand(pc, id) + rest;
    assert all[0] == InHand(pc, id)[0];
    assert all[1..] == rest;
    if pc.SWrite? {
      ApplyWrite(sv, dispatched, a, pc, env, rest, id, phase);
    } else {
      ApplyNote(sv, dispatched, a, pc, env, id);
    }
  }

  // Before the status is written the row changes in message and output streams only.
  lemma ApplyNote(sv: Server, dispatched: map<JobId, Thread>, a: AgentId, pc: Pc, env: Env, id: JobId)
    requires PcInv(sv.rows, dispatched, Conn(a), pc) && HandOk(pc)
    requires IsReport(pc) && !pc.SWrite? && (Decisive(pc) ==> !env.fails)
    requires id in sv.rows && sv.rows[id].owner == a && Touched(pc) == Some(id)
    requires IsStart(pc.m) ==> sv.rows[id].status == Assigned
    requires IsEnd(pc.m) ==> sv.rows[id].status == Running
    requires (IsStart(pc.m) || IsEnd(pc.m)) && Fits(pc.m, sv.rows[id])
    ensures var o := Advance(sv, pc, env);
      && HandOk(o.pc) && id in o.sv.rows && InHand(o.pc, id) == InHand(pc, id)
      && o.sv.rows[id].status == sv.rows[id].status && o.sv.rows[id].attempt == sv.rows[id].attempt
      && o.sv.rows[id].outputKey == sv.rows[id].outputKey
  {
    hide PlanFor, Assignment;
  }

  lemma ApplyWrite(sv: Server, dispatched: map<JobId, Thread>, a: AgentId, pc: Pc, env: Env, rest: seq<JobStatus>,
      id: JobId, phase: Phase)
    requires PcInv(sv.rows, dispatched, Conn(a), pc) && HandOk(pc) && pc.SWrite? && !env.fails
    requires id in sv.rows && Touched(pc) == Some(id) && !phase.TurnedAway?
    requires Flow(sv.rows[id], [pc.m] + rest, phase)
    ensures var o := Advance(sv, pc, env);
      HandOk(o.pc) && id in o.sv.rows && Flow(o.sv.rows[id], InHand(o.pc, id) + rest, phase)
  {
    hide PlanFor, Assignment;
    assert ([pc.m] + rest)[0] == pc.m && ([pc.m] + rest)[1..] == rest && [] + rest == rest;
  }

  // A FAILED report on an ASSIGNED job is dropped: the row keeps its status.
  lemma ApplyRefusal(sv: Server, dispatched: map<JobId, Thread>, a: AgentId, pc: Pc, env: Env, id: JobId)
    requires PcInv(sv.rows, dispatched, Conn(a), pc) && HandOk(pc) && IsReport(pc)
    requires id in sv.rows && sv.rows[id].status == Assigned && Touched(pc) == Some(id)
    requires pc.m.status == STATUS_FAILED
    ensures var o := Advance(sv, pc, env);
      && HandOk(o.pc) && id in o.sv.rows && o.sv.rows[id].status == Assigned
      && (InHand(o.pc, id) == [pc.m] || InHand(o.pc, id) == [])
  {
    hide PlanFor, Assignment;
  }

  lemma RefusalStays(sv: Server, dispatched: map<JobId, Thread>, a: AgentId, pc: Pc, env: Env, rest: seq<JobStatus>,
      id: JobId)
    requires PcInv(sv.rows, dispatched, Conn(a), pc) && HandOk(pc) && IsReport(pc)
    requires id in sv.rows && Touched(pc) == Some(id)
    requires Flow(sv.rows[id], InHand(pc, id) + rest, TurnedAway)
    ensures var o := Advance(sv, pc, env); id in o.sv.rows && Flow(o.sv.rows[id], InHand(o.pc, id) + rest, TurnedAway)
  {
    hide Advance, PcInv, HandOk;
    var all := InHand(pc, id) + rest;
    assert all[0] == pc.m && InHand(pc, id) == [pc.m];
    assert forall n | 0 <= n < |rest| :: rest[n] == all[n + 1];
    ApplyRefusal(sv, dispatched, a, pc, env, id);
  }

  // A call that is not about job id leaves its row, and what is in hand for it, alone.
  lemma OtherHand(sv: Server, pc: Pc, env: Env, id: JobId)
    requires Touched(pc) != Some(id) && HandOk(pc)
    ensures InHand(Advance(sv, pc, env).pc, id) == InHand(pc, id) == []
    ensures SameRow(sv.rows, Advance(sv, pc, env).sv.rows, id)
    ensures HandOk(Advance(sv, pc, env).pc)
  {
    AdvanceFrame(sv, pc, env);
  }

  // What one call of the agent's own handler means for one of the agent's jobs.
  lemma OwnJob(strict: bool, s: Sys, a: AgentId, env: Env, o: Outcome, id: JobId, phase: Phase)
    requires SysInv(s) && Conn(a) in s.d.threads && HandOk(s.d.threads[Conn(a)])
    requires o == Advance(s.d.sv, s.d.threads[Conn(a)], env)
    requires Sent(s.d.dispatched, Conn(a), a, id)
    requires strict && Decisive(s.d.threads[Conn(a)]) ==> !env.fails
    requires id in s.d.sv.rows
    requires Follows(strict, s.d.sv.rows[id], Remaining(s.d.threads[Conn(a)], UpOf(s, a), id), phase)
    ensures id in o.sv.rows && Follows(strict, o.sv.rows[id], Remaining(o.pc, UpOf(s, a), id), phase)
  {
    hide Flow, Advance;
    var pc := s.d.threads[Conn(a)];
    assert PcInv(s.d.sv.rows, s.d.dispatched, Conn(a), pc) && SentRow(s.d.sv.rows, id, Conn(a));
    assert HeldBy(s.d, Conn(a)) == Held(pc);
    RunKeepsRows(s.d, Conn(a), env, o);
    if Touched(pc) != Some(id) {
      OtherHand(s.d.sv, pc, env, id);
    } else if phase.TurnedAway? {
      RefusalStays(s.d.sv, s.d.dispatched, a, pc, env, Reports(UpOf(s, a), id), id);
    } else if strict {
      ApplyReport(s.d.sv, s.d.dispatched, a, pc, env, Reports(UpOf(s, a), id), id, phase);
    }
  }

  // For a job still on its way nothing is in hand; the handler leaves its row alone.
  lemma OwnDown(s: Sys, a: AgentId, env: Env, o: Outcome, id: JobId)
    requires SysInv(s) && Conn(a) in s.d.threads && HandOk(s.d.threads[Conn(a)])
    requires o == Advance(s.d.sv, s.d.threads[Conn(a)], env)
    requires Sent(s.d.dispatched, Conn(a), a, id)
    requires id in s.d.sv.rows && s.d.sv.rows[id].status == Assigned
    requires Remaining(s.d.threads[Conn(a)], UpOf(s, a), id) == []
    ensures id in o.sv.rows && o.sv.rows[id].status == Assigned && Remaining(o.pc, UpOf(s, a), id) == []
  {
    hide Advance;
    var pc := s.d.threads[Conn(a)];
    assert PcInv(s.d.sv.rows, s.d.dispatched, Conn(a), pc) && HeldBy(s.d, Conn(a)) == Held(pc);
    assert InHand(pc, id) == [];
    OtherHand(s.d.sv, pc, env, id);
  }

  lemma DownWasSent(s: Sys, a: AgentId, k: nat)
    requires TokenInv(s.d) && Channel(s, a) && k < |DownOf(s, a)|
    ensures Sent(s.d.dispatched, Conn(a), a, DownOf(s, a)[k].id)
    ensures DownOf(s, a)[k] in LogOf(s.d, Conn(a))
  {
    var n := |JobsOf(s, a)|;
    assert LogOf(s.d, Conn(a))[n + k] == DownOf(s, a)[k];
    assert Conn(a) in s.d.log;
  }

  lemma HandStep(sv: Server, pc: Pc, env: Env)
    requires HandOk(pc)
    ensures HandOk(Advance(sv, pc, env).pc)
  {}

  lemma OwnCallFlow(strict: bool, s: Sys, a: AgentId, env: Env, o: Outcome)
    requires SysInv(s) && FlowOf(strict, s, a) && Conn(a) in s.d.threads
    requires o == Advance(s.d.sv, s.d.threads[Conn(a)], env)
    requires strict && Decisive(s.d.threads[Conn(a)]) ==> !env.fails
    ensures AgentFlow(strict, o.sv.rows, o.pc, UpOf(s, a), DownOf(s, a), JobsOf(s, a))
  {
    assert Channel(s, a);
    HandStep(s.d.sv, s.d.threads[Conn(a)], env);
    var jobs, down := JobsOf(s, a), DownOf(s, a);
    forall k | 0 <= k < |jobs|
      ensures jobs[k].m.id in o.sv.rows
      ensures Follows(strict, o.sv.rows[jobs[k].m.id], Remaining(o.pc, UpOf(s, a), jobs[k].m.id), jobs[k].phase)
    {
      DeliveredWasSent(s, a, k);
      RunKeepsRows(s.d, Conn(a), env, o);
      OwnJob(strict, s, a, env, o, jobs[k].m.id, jobs[k].phase);
    }
    forall k | 0 <= k < |down|
      ensures down[k].id in o.sv.rows && o.sv.rows[down[k].id].status == Assigned
      ensures Remaining(o.pc, UpOf(s, a), down[k].id) == []
    {
      DownWasSent(s, a, k);
      OwnDown(s, a, env, o, down[k].id);
    }
  }

  // Another thread does not touch rows of jobs sent to the agent.
  lemma ForeignCallFlow(strict: bool, s: Sys, a: AgentId, t: Thread, env: Env, o: Outcome)
    requires SysInv(s) && FlowOf(strict, s, a) && t in s.d.threads
    requires t != Conn(a) && o == Advance(s.d.sv, s.d.threads[t], env)
    ensures AgentFlow(strict, o.sv.rows, PcOf(s.d, Conn(a)), UpOf(s, a), DownOf(s, a), JobsOf(s, a))
  {
    assert Channel(s, a);
    RunKeepsRows(s.d, t, env, o);
    var jobs, down := JobsOf(s, a), DownOf(s, a);
    forall k | 0 <= k < |jobs|
      ensures jobs[k].m.id in o.sv.rows && o.sv.rows[jobs[k].m.id] == s.d.sv.rows[jobs[k].m.id]
    {
      DeliveredWasSent(s, a, k);
      SentRowsAfter(s.d, t, o, jobs[k].m.id);
    }
    forall k | 0 <= k < |down| ensures down[k].id in o.sv.rows && o.sv.rows[down[k].id] == s.d.sv.rows[down[k].id] {
      DownWasSent(s, a, k);
      SentRowsAfter(s.d, t, o, down[k].id);
    }
  }

  lemma SendLeaves(sv: Server, pc: Pc, env: Env)
    ensures var o := Advance(sv, pc, env); o.sent.Some? ==> o.pc == Idle && o.sv == sv
  {
    hide PlanFor, Assignment;
  }

  // A freshly sent job joins the channel ASSIGNED and without reports.
  lemma SendFlow(strict: bool, s: Sys, a: AgentId, env: Env, o: Outcome)
    requires SysInv(s) && Conn(a) in s.d.threads && o == Advance(s.d.sv, s.d.threads[Conn(a)], env) && o.sent.Some?
    requires AgentFlow(strict, o.sv.rows, o.pc, UpOf(s, a), DownOf(s, a), JobsOf(s, a))
    ensures AgentFlow(strict, o.sv.rows, o.pc, UpOf(s, a), DownOf(s, a) + [o.sent.value], JobsOf(s, a))
  {
    hide Advance;
    assert Channel(s, a);
    SendsUnsent(s.d, Conn(a), env);
    assert PcInv(s.d.sv.rows, s.d.dispatched, Conn(a), s.d.threads[Conn(a)]);
    NoReports(UpOf(s, a), s.d.dispatched, a, o.sent.value.id);
    SendLeaves(s.d.sv, s.d.threads[Conn(a)], env);
  }

  lemma CallFlow(strict: bool, s: Sys, t: Thread, env: Env, a: AgentId)
    requires FlowInv(strict, s) && Possible(s, Call(t, env)) && (strict ==> Gentle(s, Call(t, env)))
    ensures FlowOf(strict, Next(s, Call(t, env)), a)
  {
    assert FlowOf(strict, s, a);
    var o := Advance(s.d.sv, s.d.threads[t], env);
    SendsUnsent(s.d, t, env);
    if t == Conn(a) {
      OwnCallFlow(strict, s, a, env, o);
      if o.sent.Some? { SendFlow(strict, s, a, env, o); }
    } else {
      ForeignCallFlow(strict, s, a, t, env, o);
    }
    CalledParts(s, t, o, a);
  }

  lemma CalledParts(s: Sys, t: Thread, o: Outcome, a: AgentId)
    requires o.sent.Some? ==> t.Conn?
    ensures var s' := Called(s, t, o);
      && s'.d.sv == o.sv && PcOf(s'.d, Conn(a)) == (if t == Conn(a) then o.pc else PcOf(s.d, Conn(a)))
      && UpOf(s', a) == UpOf(s, a) && JobsOf(s', a) == JobsOf(s, a)
      && DownOf(s', a) == if t == Conn(a) && o.sent.Some? then DownOf(s, a) + [o.sent.value] else DownOf(s, a)
  {}

  // The agent says something about none of its accepted or awaited jobs.
  lemma SayOther(strict: bool, rows: Rows, pc: Pc, up: seq<Up>, down: seq<JobAssigned>, jobs: seq<Delivery>, x: Up)
    requires AgentFlow(strict, rows, pc, up, down, jobs)
    requires x.StatusUp? ==>
               && (forall k | 0 <= k < |jobs| && jobs[k].m.id == x.m.id ::
                     jobs[k].phase.TurnedAway? && x.m.status == STATUS_FAILED)
               && (forall k | 0 <= k < |down| :: down[k].id != x.m.id)
    ensures AgentFlow(strict, rows, pc, up + [x], down, jobs)
  {
    forall k | 0 <= k < |jobs|
      ensures jobs[k].m.id in rows
      ensures Follows(strict, rows[jobs[k].m.id], Remaining(pc, up + [x], jobs[k].m.id), jobs[k].phase)
    {
      ReportsAppend(up, x, jobs[k].m.id);
      var said := if x.StatusUp? && x.m.id == jobs[k].m.id then [x.m] else [];
      assert Remaining(pc, up + [x], jobs[k].m.id) == Remaining(pc, up, jobs[k].m.id) + said;
      assert said == [] ==> Remaining(pc, up, jobs[k].m.id) + said == Remaining(pc, up, jobs[k].m.id);
    }
    forall k | 0 <= k < |down| ensures Remaining(pc, up + [x], down[k].id) == [] {
      ReportsAppend(up, x, down[k].id);
    }
  }

  lemma NextReport(row: Job, rest: seq<JobStatus>, phase: Phase, phase': Phase, m: JobStatus)
    requires Flow(row, rest, phase) && Fits(m, row)
    requires (phase.Fresh? && phase'.Busy? && IsStart(m))
             || (phase.Busy? && phase'.Reporting? && IsEnd(m) && phase'.last == m)
    ensures Flow(row, rest + [m], phase')
  {}

  // The worker of job i makes its next report.
  lemma WorkerSays(strict: bool, rows: Rows, pc: Pc, up: seq<Up>, down: seq<JobAssigned>, jobs: seq<Delivery>,
      i: nat, x: Up, phase: Phase)
    requires AgentFlow(strict, rows, pc, up, down, jobs) && i < |jobs| && x.StatusUp? && x.m.id == jobs[i].m.id
    requires forall k | 0 <= k < |jobs| && k != i :: jobs[k].m.id != jobs[i].m.id
    requires forall k | 0 <= k < |down| :: down[k].id != jobs[i].m.id
    requires strict ==> Fits(x.m, rows[jobs[i].m.id])
    requires (jobs[i].phase.Fresh? && phase.Busy? && IsStart(x.m))
             || (jobs[i].phase.Busy? && phase.Reporting? && IsEnd(x.m) && phase.last == x.m)
    ensures AgentFlow(strict, rows, pc, up + [x], down, jobs[i := jobs[i].(phase := phase)])
  {
    hide Flow, Fits, InHand, Reports;
    var jobs' := jobs[i := jobs[i].(phase := phase)];
    forall k | 0 <= k < |jobs'|
      ensures jobs'[k].m.id in rows
      ensures Follows(strict, rows[jobs'[k].m.id], Remaining(pc, up + [x], jobs'[k].m.id), jobs'[k].phase)
    {
      ReportsAppend(up, x, jobs[k].m.id);
      if k == i {
        assert Remaining(pc, up + [x], jobs[i].m.id) == Remaining(pc, up, jobs[i].m.id) + [x.m];
        if strict { NextReport(rows[jobs[i].m.id], Remaining(pc, up, jobs[i].m.id), jobs[i].phase, phase, x.m); }
      } else {
        assert Reports(up, jobs[k].m.id) + [] == Reports(up, jobs[k].m.id);
      }
    }
    forall k | 0 <= k < |down| ensures Remaining(pc, up + [x], down[k].id) == [] {
      ReportsAppend(up, x, down[k].id);
    }
  }

  // The gateway takes up the next message; a report moves from the channel into its hand.
  lemma TakeUp(strict: bool, rows: Rows, up: seq<Up>, down: seq<JobAssigned>, jobs: seq<Delivery>, pc: Pc)
    requires AgentFlow(strict, rows, Idle, up, down, jobs) && up != []
    requires forall id :: InHand(pc, id) == if up[0].StatusUp? && up[0].m.id == id then [up[0].m] else []
    requires HandOk(pc)
    ensures AgentFlow(strict, rows, pc, up[1..], down, jobs)
  {
    forall id ensures Remaining(pc, up[1..], id) == Remaining(Idle, up, id) {}
  }

  lemma DistinctJobs(s: Sys, a: AgentId, i: nat, k: nat)
    requires SysInv(s) && i < |LogOf(s.d, Conn(a))| && k < |LogOf(s.d, Conn(a))| && i != k
    ensures LogOf(s.d, Conn(a))[i].id != LogOf(s.d, Conn(a))[k].id
  {
    var j, n := if i < k then i else k, if i < k then k else i;
    assert s.d.log[Conn(a)][j].id != s.d.log[Conn(a)][n].id;
  }

  // Job i is not delivered twice and is not on its way again.
  lemma OnlyOnce(s: Sys, a: AgentId, i: nat)
    requires SysInv(s) && i < |JobsOf(s, a)|
    ensures forall k | 0 <= k < |JobsOf(s, a)| && k != i :: JobsOf(s, a)[k].m.id != JobsOf(s, a)[i].m.id
    ensures forall k | 0 <= k < |DownOf(s, a)| :: DownOf(s, a)[k].id != JobsOf(s, a)[i].m.id
  {
    assert Channel(s, a);
    DeliveredWasSent(s, a, i);
    forall k | 0 <= k < |JobsOf(s, a)| && k != i ensures JobsOf(s, a)[k].m.id != JobsOf(s, a)[i].m.id {
      DeliveredWasSent(s, a, k);
      DistinctJobs(s, a, i, k);
    }
    forall k | 0 <= k < |DownOf(s, a)| ensures DownOf(s, a)[k].id != JobsOf(s, a)[i].m.id {
      assert LogOf(s.d, Conn(a))[|JobsOf(s, a)| + k] == DownOf(s, a)[k];
      DistinctJobs(s, a, i, |JobsOf(s, a)| + k);
    }
  }

  // What a worker reports fits the stored row.
  lemma ReportsFit(s: Sys, a: AgentId, i: nat, ending: Ending)
    requires FlowInv(true, s) && i < |JobsOf(s, a)|
    ensures var m := JobsOf(s, a)[i].m;
      && m.id in s.d.sv.rows && Fits(RunningReport(m), s.d.sv.rows[m.id])
      && Fits(FinalReport(m, ending), s.d.sv.rows[m.id])
  {
    assert Channel(s, a);
    DeliveredWasSent(s, a, i);
    var m := JobsOf(s, a)[i].m;
    assert Agrees(s.d.sv.rows, s.d.log[Conn(a)][i]);
    Int32Exact(s.d.sv.rows[m.id].attempt);
  }

  lemma ProgressFlow(strict: bool, s: Sys, a: AgentId, i: nat, ending: Ending)
    requires FlowInv(strict, s) && Possible(s, Progress(a, i, ending))
    ensures FlowOf(strict, Next(s, Progress(a, i, ending)), a)
  {
    hide AgentFlow, Fits, SysInv, SmallAttempts;
    assert FlowOf(strict, s, a);
    var job := s.clients[a].jobs[i];
    var s' := Next(s, Progress(a, i, ending));
    OnlyOnce(s, a, i);
    if strict { ReportsFit(s, a, i, ending); }
    if job.phase.Fresh? {
      WorkerSays(strict, s.d.sv.rows, PcOf(s.d, Conn(a)), UpOf(s, a), DownOf(s, a), JobsOf(s, a), i,
                 StatusUp(RunningReport(job.m)), Busy);
    } else if job.phase.Busy? {
      WorkerSays(strict, s.d.sv.rows, PcOf(s.d, Conn(a)), UpOf(s, a), DownOf(s, a), JobsOf(s, a), i,
                 StatusUp(FinalReport(job.m, ending)), Reporting(FinalReport(job.m, ending)));
    } else {
      WorkerLeaves(strict, s.d.sv.rows, PcOf(s.d, Conn(a)), UpOf(s, a), DownOf(s, a), JobsOf(s, a), i);
    }
  }

  lemma WorkerLeaves(strict: bool, rows: Rows, pc: Pc, up: seq<Up>, down: seq<JobAssigned>, jobs: seq<Delivery>, i: nat)
    requires AgentFlow(strict, rows, pc, up, down, jobs) && i < |jobs| && jobs[i].phase.Reporting?
    ensures AgentFlow(strict, rows, pc, up, down, jobs[i := jobs[i].(phase := Gone(jobs[i].phase.last))])
  {
    hide Finished, Remaining, HandOk;
  }

  lemma DeliverFlow(strict: bool, s: Sys, a: AgentId)
    requires FlowInv(strict, s) && Possible(s, Deliver(a))
    ensures FlowOf(strict, Next(s, Deliver(a)), a)
  {
    hide SmallAttempts, AgentFlow;
    assert FlowOf(strict, s, a) && Channel(s, a);
    var m := s.down[a][0];
    var s' := s.(down := s.down[a := s.down[a][1..]], clients := s.clients[a := Received(s.clients[a], m)]);
    var rows, pc, up, jobs' := s.d.sv.rows, PcOf(s.d, Conn(a)), UpOf(s, a), Received(s.clients[a], m).jobs;
    assert DownOf(s, a)[0] == m;
    Arrives(strict, rows, pc, up, DownOf(s, a), JobsOf(s, a), if s.clients[a].CanAccept() then Fresh else TurnedAway);
    if !s.clients[a].CanAccept() {
      assert JobsOf(s', a) == jobs' && SysInv(s') by { DeliveredNow(s, a); }
      OnlyOnce(s', a, |jobs'| - 1);
      SayOther(strict, rows, pc, up, DownOf(s', a), jobs', StatusUp(FinalReport(m, TURNED_AWAY)));
    }
  }

  lemma Arrives(strict: bool, rows: Rows, pc: Pc, up: seq<Up>, down: seq<JobAssigned>, jobs: seq<Delivery>,
      phase: Phase)
    requires AgentFlow(strict, rows, pc, up, down, jobs) && down != [] && (phase.Fresh? || phase.TurnedAway?)
    ensures AgentFlow(strict, rows, pc, up, down[1..], jobs + [Delivery(down[0], phase)])
  {
    hide Remaining, HandOk;
    assert Flow(rows[down[0].id], Remaining(pc, up, down[0].id), phase);
  }

  lemma DeliveredNow(s: Sys, a: AgentId)
    requires SysInv(s) && Possible(s, Deliver(a))
    ensures SysInv(s.(down := s.down[a := s.down[a][1..]],
                      clients := s.clients[a := Received(s.clients[a], s.down[a][0])]))
  {
    var m := s.down[a][0];
    var c := Received(s.clients[a], m);
    assert Assignments(c.jobs) == Assignments(JobsOf(s, a)) + [m];
    TakeKeepsChannels(s, s.(down := s.down[a := s.down[a][1..]], clients := s.clients[a := c]), a, m);
  }

  lemma HeadWasSent(s: Sys, a: AgentId)
    requires SysInv(s) && UpOf(s, a) != []
    ensures var x := UpOf(s, a)[0]; x.StatusUp? ==> Sent(s.d.dispatched, Conn(a), a, x.m.id) && x.m.id != ""
    ensures a in s.clients && a != ""
  {
    hide ThreadsInv, SentInv, LogInv;
    assert Channel(s, a);
  }

  // The gateway starts on the message at the head of the channel.
  lemma ServedParts(s: Sys, a: AgentId, now: int)
    requires Possible(s, Serve(a, now)) && a != "" && (UpOf(s, a)[0].StatusUp? ==> UpOf(s, a)[0].m.id != "")
    ensures PcOf(s.d, Conn(a)) == Idle
    ensures var s' := Next(s, Serve(a, now));
      && s'.d.sv.rows == s.d.sv.rows && UpOf(s', a) == UpOf(s, a)[1..] && DownOf(s', a) == DownOf(s, a)
      && JobsOf(s', a) == JobsOf(s, a)
      && PcOf(s'.d, Conn(a)) == match UpOf(s, a)[0]
                                case RequestUp => RCheck(a)
                                case StatusUp(m) => SGet(a, m)
                                case BeatUp(_, _) => Idle
  {
    hide Advance, Registered, Beaten;
  }

  lemma ServeFlow(strict: bool, s: Sys, a: AgentId, now: int)
    requires FlowInv(strict, s) && Possible(s, Serve(a, now))
    ensures FlowOf(strict, Next(s, Serve(a, now)), a)
  {
    HeadWasSent(s, a);
    assert FlowOf(strict, s, a);
    ServedParts(s, a, now);
    hide AgentFlow, FlowInv, Next, Possible;
    var s' := Next(s, Serve(a, now));
    TakeUp(strict, s.d.sv.rows, UpOf(s, a), DownOf(s, a), JobsOf(s, a), PcOf(s'.d, Conn(a)));
  }

  // The parts of the state that an agent's flow depends on, when others act.
  lemma SameParts(strict: bool, s: Sys, s': Sys, a: AgentId)
    requires FlowOf(strict, s, a)
    requires s'.d.sv.rows == s.d.sv.rows && PcOf(s'.d, Conn(a)) == PcOf(s.d, Conn(a))
    requires UpOf(s', a) == UpOf(s, a) && DownOf(s', a) == DownOf(s, a) && JobsOf(s', a) == JobsOf(s, a)
    ensures FlowOf(strict, s', a)
  {}

  // The agent asks for a job or sends a heartbeat.
  lemma AskFlow(strict: bool, s: Sys, act: Act, a: AgentId)
    requires FlowInv(strict, s) && Possible(s, act) && (act.Poll? || act.LatePoll? || act.Beat?) && act.a == a
    ensures FlowOf(strict, Next(s, act), a)
  {
    assert FlowOf(strict, s, a);
    var x := if act.Poll? || act.LatePoll? then RequestUp else BeatUp(s.clients[a].paused, s.clients[a].running);
    SayOther(strict, s.d.sv.rows, PcOf(s.d, Conn(a)), UpOf(s, a), DownOf(s, a), JobsOf(s, a), x);
  }

  // Actions of another agent, of an HTTP client, and changes of mood.
  predicate Aloof(act: Act, a: AgentId) {
    act.Post? || act.Pause? || act.Join? || (!act.Call? && act.a != a)
  }

  lemma ServeParts(s: Sys, b: AgentId, now: int, a: AgentId)
    requires Possible(s, Serve(b, now)) && b != a
    ensures var s' := Next(s, Serve(b, now));
      && s'.d.sv.rows == s.d.sv.rows && PcOf(s'.d, Conn(a)) == PcOf(s.d, Conn(a))
      && UpOf(s', a) == UpOf(s, a) && DownOf(s', a) == DownOf(s, a) && JobsOf(s', a) == JobsOf(s, a)
  {
    hide Advance, Registered, Beaten;
    var d' := Step(s.d, Heard(b, s.up[b][0], now));
    assert d'.sv.rows == s.d.sv.rows && PcOf(d', Conn(a)) == PcOf(s.d, Conn(a));
  }

  lemma AloofParts(s: Sys, act: Act, a: AgentId)
    requires Possible(s, act) && Aloof(act, a) && !act.Serve?
    ensures var s' := Next(s, act);
      && s'.d.sv.rows == s.d.sv.rows && PcOf(s'.d, Conn(a)) == PcOf(s.d, Conn(a))
      && UpOf(s', a) == UpOf(s, a) && DownOf(s', a) == DownOf(s, a) && JobsOf(s', a) == JobsOf(s, a)
  {
    if act.Post? || act.Join? { NewcomerParts(s, act, a); } else { NeighbourParts(s, act, a); }
  }

  lemma NewcomerParts(s: Sys, act: Act, a: AgentId)
    requires Possible(s, act) && (act.Post? || act.Join?)
    ensures var s' := Next(s, act);
      && s'.d.sv.rows == s.d.sv.rows && PcOf(s'.d, Conn(a)) == PcOf(s.d, Conn(a))
      && UpOf(s', a) == UpOf(s, a) && DownOf(s', a) == DownOf(s, a) && JobsOf(s', a) == JobsOf(s, a)
  {
    hide Advance, Registered, RunningReport, FinalReport, Called, Heard, Worked, Received;
  }

  lemma NeighbourParts(s: Sys, act: Act, a: AgentId)
    requires Possible(s, act) && Aloof(act, a) && !act.Serve? && !act.Post? && !act.Join?
    ensures Next(s, act).d == s.d
    ensures var s' := Next(s, act);
      && s'.d.sv.rows == s.d.sv.rows && PcOf(s'.d, Conn(a)) == PcOf(s.d, Conn(a))
      && UpOf(s', a) == UpOf(s, a) && DownOf(s', a) == DownOf(s, a) && JobsOf(s', a) == JobsOf(s, a)
  {
    hide Advance, Step, RunningReport, FinalReport, Called, Heard, Worked, Received;
  }

  lemma OthersFlow(strict: bool, s: Sys, act: Act, a: AgentId)
    requires FlowOf(strict, s, a) && Possible(s, act) && Aloof(act, a)
    ensures FlowOf(strict, Next(s, act), a)
  {
    if act.Serve? { ServeParts(s, act.a, act.now, a); } else { AloofParts(s, act, a); }
    SameParts(strict, s, Next(s, act), a);
  }

  lemma AttemptStep(sv: Server, pc: Pc, env: Env, id: JobId)
    requires id in Advance(sv, pc, env).sv.rows
    ensures var n := Advance(sv, pc, env).sv.rows[id].attempt;
      (id in sv.rows && (n == sv.rows[id].attempt || n == 1)) || (pc.CCreate? && n == pc.job.attempt)
    ensures !Advance(sv, pc, env).pc.CCreate?
  {
    hide PlanFor, Assignment;
  }

  lemma AttemptsStay(s: Sys, act: Act)
    requires SmallAttempts(s.d) && Possible(s, act) && Gentle(s, act)
    ensures SmallAttempts(Next(s, act).d)
  {
    hide Advance;
    if act.Call? {
      var o := Advance(s.d.sv, s.d.threads[act.t], act.env);
      forall id | id in o.sv.rows ensures o.sv.rows[id].attempt <= MAX_INT32 {
        AttemptStep(s.d.sv, s.d.threads[act.t], act.env, id);
      }
      NewRow(s.d.sv, s.d.threads[act.t], act.env, "");
      CalledAttempts(s, act.t, o);
    }
  }

  lemma CalledAttempts(s: Sys, t: Thread, o: Outcome)
    requires SmallAttempts(s.d) && !o.pc.CCreate? && forall id | id in o.sv.rows :: o.sv.rows[id].attempt <= MAX_INT32
    ensures SmallAttempts(Called(s, t, o).d)
  {}

  lemma FlowKept(strict: bool, s: Sys, act: Act)
    requires FlowInv(strict, s) && Possible(s, act) && (strict ==> Gentle(s, act))
    ensures FlowInv(strict, Next(s, act))
  {
    SysKept(s, act);
    if strict { AttemptsStay(s, act); }
    forall a ensures FlowOf(strict, Next(s, act), a) {
      AgentFlowKept(strict, s, act, a);
    }
  }

  lemma AgentFlowKept(strict: bool, s: Sys, act: Act, a: AgentId)
    requires FlowInv(strict, s) && Possible(s, act) && (strict ==> Gentle(s, act))
    ensures FlowOf(strict, Next(s, act), a)
  {
    if act.Call? { CallFlow(strict, s, act.t, act.env, a); }
    else if act.Serve? && act.a == a { ServeFlow(strict, s, a, act.now); }
    else if act.Deliver? && act.a == a { DeliverFlow(strict, s, a); }
    else if act.Progress? && act.a == a { ProgressFlow(strict, s, a, act.i, act.ending); }
    else if (act.Poll? || act.LatePoll? || act.Beat?) && act.a == a { AskFlow(strict, s, act, a); }
    else {
      assert FlowOf(strict, s, a);
      OthersFlow(strict, s, act, a);
    }
  }

  lemma {:induction false} ExecutionsKeepFlow(strict: bool, states: seq<Sys>, acts: seq<Act>, k: nat)
    requires IsExecution(states, acts) && k < |states|
    requires strict ==> forall i | 0 <= i < |acts| :: Gentle(states[i], acts[i])
    ensures FlowInv(strict, states[k])
  {
    if k > 0 {
      ExecutionsKeepFlow(strict, states, acts, k - 1);
      FlowKept(strict, states[k - 1], acts[k - 1]);
    } else {
      ExecutionsKeepSys(states, acts, 0);
      forall a ensures FlowOf(strict, states[0], a) {}
    }
  }

  // A sequence of reported statuses, each a legal transition from the one before.
  predicate LegalPath(from: Status, steps: seq<Status>)
    decreases |steps|
  {
    steps == [] || (from.CanTransitionTo(steps[0]) && LegalPath(steps[0], steps[1..]))
  }

  function Statuses(ms: seq<JobStatus>): seq<Status> {
    if ms == [] then [] else [StatusFromProto(ms[0].status)] + Statuses(ms[1..])
  }

  // What the worker of an accepted job still has to report, if it is to end in `how`.
  function ToCome(phase: Phase, how: Status): seq<Status> {
    if phase.Fresh? then [Running, how] else if phase.Busy? then [how] else []
  }

  lemma FlowIsLegal(row: Job, rest: seq<JobStatus>, phase: Phase, how: Status)
    requires Flow(row, rest, phase) && !phase.TurnedAway? && (how == Succeeded || how == Failed)
    ensures LegalPath(row.status, Statuses(rest) + ToCome(phase, how))
  {
    var steps := Statuses(rest) + ToCome(phase, how);
    assert |rest| == 1 ==> rest[1..] == [];
    assert |rest| == 2 ==> rest[1..] == [rest[1]] && rest[1..][1..] == [];
    assert |rest| == 1 ==> Statuses(rest) == [StatusFromProto(rest[0].status)];
    assert |rest| == 2 ==> Statuses(rest[1..]) == [StatusFromProto(rest[1].status)];
    if row.status == Assigned {
      assert steps == [Running, if phase.Reporting? || phase.Gone? then StatusFromProto(phase.last.status) else how];
      ShortPaths(Assigned, Running, steps[1]);
    } else if row.status == Running {
      assert steps == [if phase.Reporting? || phase.Gone? then StatusFromProto(phase.last.status) else how];
      ShortPaths(Assigned, Running, steps[0]);
    }
  }

  lemma ShortPaths(x: Status, y: Status, z: Status)
    ensures LegalPath(x, [y, z]) <==> x.CanTransitionTo(y) && y.CanTransitionTo(z)
    ensures LegalPath(y, [z]) <==> y.CanTransitionTo(z)
  {
    assert [y, z][1..] == [z] && [z][1..] == [];
    assert LegalPath(y, [z]) <==> y.CanTransitionTo(z) && LegalPath(z, []);
  }

  // In every state of every execution, for every job that an agent accepted: the
  // stored status, the reports in the handler's hand and in the channel, and
  // those its worker has yet to make form a legal path.
  lemma AcceptedJobsFlow(states: seq<Sys>, acts: seq<Act>, k: nat, a: AgentId, i: nat, how: Status)
    requires IsExecution(states, acts) && k < |states|
    requires forall n | 0 <= n < |acts| :: Gentle(states[n], acts[n])
    requires i < |JobsOf(states[k], a)|
    requires !JobsOf(states[k], a)[i].phase.TurnedAway? && (how == Succeeded || how == Failed)
    ensures var s := states[k]; var job := JobsOf(s, a)[i];
      && job.m.id in s.d.sv.rows
      && LegalPath(s.d.sv.rows[job.m.id].status,
                   Statuses(Remaining(PcOf(s.d, Conn(a)), UpOf(s, a), job.m.id)) + ToCome(job.phase, how))
  {
    ExecutionsKeepFlow(true, states, acts, k);
    var s := states[k];
    assert FlowOf(true, s, a);
    var job := JobsOf(s, a)[i];
    FlowIsLegal(s.d.sv.rows[job.m.id], Remaining(PcOf(s.d, Conn(a)), UpOf(s, a), job.m.id), job.phase, how);
  }

  // Hence no report of an accepted job is dropped or refused by its handler.
  lemma NoReportRefused(states: seq<Sys>, acts: seq<Act>, k: nat, a: AgentId, i: nat, env: Env)
    requires IsExecution(states, acts) && k < |states|
    requires forall n | 0 <= n < |acts| :: Gentle(states[n], acts[n])
    requires i < |JobsOf(states[k], a)| && !JobsOf(states[k], a)[i].phase.TurnedAway?
    requires Decisive(PcOf(states[k].d, Conn(a))) ==> !env.fails
    requires InHand(PcOf(states[k].d, Conn(a)), JobsOf(states[k], a)[i].m.id) != []
    ensures var pc := PcOf(states[k].d, Conn(a)); var o := Advance(states[k].d.sv, pc, env);
      if pc.SWrite? then
        && JobsOf(states[k], a)[i].m.id in o.sv.rows
        && o.sv.rows[JobsOf(states[k], a)[i].m.id].status == StatusFromProto(pc.m.status)
      else InHand(o.pc, JobsOf(states[k], a)[i].m.id) == InHand(pc, JobsOf(states[k], a)[i].m.id)
  {
    hide Advance, Flow;
    ExecutionsKeepFlow(true, states, acts, k);
    var s := states[k];
    assert FlowOf(true, s, a) && Channel(s, a);
    var job := JobsOf(s, a)[i];
    var pc := PcOf(s.d, Conn(a));
    DeliveredWasSent(s, a, i);
    assert PcInv(s.d.sv.rows, s.d.dispatched, Conn(a), pc) && SentRow(s.d.sv.rows, job.m.id, Conn(a));
    ApplyReport(s.d.sv, s.d.dispatched, a, pc, env, Reports(UpOf(s, a), job.m.id), job.m.id, job.phase);
    if pc.SWrite? { WrittenAsReported(s.d.sv, s.d.dispatched, a, pc, env, Reports(UpOf(s, a), job.m.id), job.phase); }
  }

  lemma WrittenAsReported(sv: Server, dispatched: map<JobId, Thread>, a: AgentId, pc: Pc, env: Env,
      rest: seq<JobStatus>, phase: Phase)
    requires PcInv(sv.rows, dispatched, Conn(a), pc) && HandOk(pc) && pc.SWrite? && !env.fails && !phase.TurnedAway?
    requires pc.m.id in sv.rows && Flow(sv.rows[pc.m.id], [pc.m] + rest, phase)
    ensures Advance(sv, pc, env).sv.rows[pc.m.id].status == StatusFromProto(pc.m.status)
  {
    assert ([pc.m] + rest)[0] == pc.m;
  }

  // What was turned away stays turned away.
  lemma TurnedAwayKept(s: Sys, act: Act, a: AgentId, i: nat)
    requires Possible(s, act) && i < |JobsOf(s, a)| && JobsOf(s, a)[i].phase.TurnedAway?
    ensures i < |JobsOf(Next(s, act), a)| && JobsOf(Next(s, act), a)[i] == JobsOf(s, a)[i]
  {
    hide Advance, Step, RunningReport, FinalReport, Heard;
  }

  // An agent's refusal is never heard: the transition table has no way from ASSIGNED to
  // FAILED, so a job that was turned away stays ASSIGNED, and its owner's, for ever.
  lemma {:induction false} TurnedAwayStrands(states: seq<Sys>, acts: seq<Act>, k: nat, n: nat, a: AgentId, i: nat)
    requires IsExecution(states, acts) && k <= n < |states|
    requires i < |JobsOf(states[k], a)| && JobsOf(states[k], a)[i].phase.TurnedAway?
    ensures i < |JobsOf(states[n], a)| && JobsOf(states[n], a)[i] == JobsOf(states[k], a)[i]
    ensures var id := JobsOf(states[k], a)[i].m.id; var rows := states[n].d.sv.rows;
      id in rows && rows[id].status == Assigned && rows[id].owner == a
  {
    hide Next, Possible, FlowInv;
    if n > k {
      TurnedAwayStrands(states, acts, k, n - 1, a, i);
      TurnedAwayKept(states[n - 1], acts[n - 1], a, i);
    }
    ExecutionsKeepFlow(false, states, acts, n);
    TurnedAwayRow(states[n], a, i);
  }

  lemma TurnedAwayRow(s: Sys, a: AgentId, i: nat)
    requires FlowInv(false, s) && i < |JobsOf(s, a)| && JobsOf(s, a)[i].phase.TurnedAway?
    ensures var id := JobsOf(s, a)[i].m.id; var rows := s.d.sv.rows;
      id in rows && rows[id].status == Assigned && rows[id].owner == a
  {
    assert FlowOf(false, s, a) && Channel(s, a);
    DeliveredWasSent(s, a, i);
    assert SentRow(s.d.sv.rows, JobsOf(s, a)[i].m.id, Conn(a));
  }

  // Once a worker is gone and its reports have been applied, the stored outcome is the reported one.
  lemma OutcomeRecorded(states: seq<Sys>, acts: seq<Act>, k: nat, a: AgentId, i: nat)
    requires IsExecution(states, acts) && k < |states|
    requires forall n | 0 <= n < |acts| :: Gentle(states[n], acts[n])
    requires i < |JobsOf(states[k], a)| && JobsOf(states[k], a)[i].phase.Gone?
    requires Remaining(PcOf(states[k].d, Conn(a)), UpOf(states[k], a), JobsOf(states[k], a)[i].m.id) == []
    ensures JobsOf(states[k], a)[i].m.id in states[k].d.sv.rows
    ensures states[k].d.sv.rows[JobsOf(states[k], a)[i].m.id].status
         == StatusFromProto(JobsOf(states[k], a)[i].phase.last.status)
  {
    ExecutionsKeepFlow(true, states, acts, k);
    assert FlowOf(true, states[k], a);
  }
}
