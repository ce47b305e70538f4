// What a worker reports last is what the job table ends up saying: status, output
// streams and message.
module ProtocolOutcome {
  import opened Options
  import opened JobModel
  import opened Messages
  import opened Store
  import opened Registry
  import opened Dispatch
  import opened DispatchRows
  import opened Protocol
  import opened ProtocolFlow

  // The row shows what the report says besides its status.
  predicate Shows(row: Job, m: JobStatus) {
    row.stdout == m.stdout && row.stderr == m.stderr && (m.message != "" ==> row.message == m.message)
  }

  // What a handler that applies a final report on job id has stored of it so far.
  predicate Noted(rows: Rows, pc: Pc, id: JobId) {
    match pc
    case SStreams(_, m, _) => m.id == id && id in rows && m.message != "" ==> rows[id].message == m.message
    case SRead(_, m, _, _) => m.id == id && id in rows && IsEnd(m) ==> Shows(rows[id], m)
    case SWrite(_, m, _, _) => m.id == id && id in rows && IsEnd(m) ==> Shows(rows[id], m)
    case _ => true
  }

  ghost predicate NotesInv(d: State, id: JobId) {
    forall t | t in d.threads :: Noted(d.sv.rows, d.threads[t], id)
  }

  // The calls that store message and streams of reports on job id do not fail.
  predicate Attends(s: Sys, act: Act, id: JobId) {
    act.Call? ==>
      match PcOf(s.d, act.t)
      case SMessage(_, m, _) => m.id == id ==> !act.env.fails
      case SStreams(_, m, _) => m.id == id ==> !act.env.fails
      case _ => true
  }

  lemma NotedOn(sv: Server, pc: Pc, env: Env, id: JobId)
    requires Noted(sv.rows, pc, id)
    requires (pc.SMessage? || pc.SStreams?) && pc.m.id == id ==> !env.fails
    ensures var o := Advance(sv, pc, env); Noted(o.sv.rows, o.pc, id)
  {
    hide PlanFor, Assignment;
  }

  // Other handlers leave alone the row that a report is being applied to.
  lemma NotedElsewhere(d: State, t: Thread, o: Outcome, u: Thread, id: JobId)
    requires RowsInv(d) && t in d.threads && u in d.threads && t != u && Noted(d.sv.rows, d.threads[u], id)
    requires RowsStep(d.sv, d.dispatched, t, d.threads[t], o)
    ensures Noted(o.sv.rows, d.threads[u], id)
  {
    hide RowsInv, Shows, GoodStep, OwnersOf, Agrees;
    if (d.threads[u].SStreams? || d.threads[u].SRead? || d.threads[u].SWrite?) && d.threads[u].m.id == id {
      if !d.threads[t].SGet? { TouchedApart(d, t, u); }
      assert Touched(d.threads[u]) == Some(id);
      assert SameRow(d.sv.rows, o.sv.rows, id);
    }
  }

  lemma AfterNotes(d: State, t: Thread, o: Outcome, id: JobId)
    requires RowsInv(d) && NotesInv(d, id) && t in d.threads && Noted(o.sv.rows, o.pc, id)
    requires RowsStep(d.sv, d.dispatched, t, d.threads[t], o)
    ensures NotesInv(After(d, t, o), id)
  {
    hide RowsInv, Noted, RowsStep;
    forall u | u in d.threads && u != t ensures Noted(o.sv.rows, d.threads[u], id) {
      NotedElsewhere(d, t, o, u, id);
    }
  }

  lemma NotesKept(s: Sys, act: Act, id: JobId)
    requires SysInv(s) && NotesInv(s.d, id) && Possible(s, act) && Attends(s, act, id)
    ensures NotesInv(Next(s, act).d, id)
  {
    hide Advance, Noted, RowsInv;
    if act.Call? {
      var o := Advance(s.d.sv, s.d.threads[act.t], act.env);
      NotedOn(s.d.sv, s.d.threads[act.t], act.env, id);
      RunKeepsRows(s.d, act.t, act.env, o);
      AfterNotes(s.d, act.t, o, id);
    } else {
      QuietNotes(s, act, id);
    }
  }

  // Other actions change no row, and start handlers at their beginning.
  lemma QuietNotes(s: Sys, act: Act, id: JobId)
    requires NotesInv(s.d, id) && Possible(s, act) && !act.Call?
    ensures NotesInv(Next(s, act).d, id)
  {
    hide Advance, Registered, Beaten, RunningReport, FinalReport;
  }

  predicate HasEnded(rows: Rows, id: JobId) {
    id in rows && (rows[id].status == Succeeded || rows[id].status == Failed)
  }

  // The last report is about the job, and once the job has ended its row shows that report.
  ghost predicate RecordInv(s: Sys, a: AgentId, id: JobId) {
    forall i | 0 <= i < |JobsOf(s, a)| && JobsOf(s, a)[i].m.id == id ::
      RecordOf(s.d.sv.rows, JobsOf(s, a)[i])
  }

  predicate RecordOf(rows: Rows, job: Delivery) {
    job.phase.Reporting? || job.phase.Gone? ==>
      && job.phase.last.id == job.m.id && job.phase.last.attempt == job.m.attempt
      && (HasEnded(rows, job.m.id) ==> Shows(rows[job.m.id], job.phase.last))
  }

  // The job is ended by the last write of a status handler.
  predicate EndsBy(rows: Rows, pc: Pc, rows': Rows, id: JobId) {
    && pc.SWrite? && pc.m.id == id && (pc.to == Succeeded || pc.to == Failed)
    && id in rows && id in rows' && rows'[id] == rows[id].(status := pc.to)
  }

  // Nothing else ends a job.
  lemma OnlyWritesEnd(sv: Server, pc: Pc, env: Env, id: JobId)
    requires id in sv.rows && !HasEnded(sv.rows, id) && (pc.CCreate? ==> IsNew(pc.job)) && HandOk(pc)
    requires HasEnded(Advance(sv, pc, env).sv.rows, id)
    ensures EndsBy(sv.rows, pc, Advance(sv, pc, env).sv.rows, id)
  {
    hide PlanFor, Assignment;
  }

  // The handler's write that ends an accepted job is that of the worker's last report.
  lemma EndingWrite(row: Job, pc: Pc, rest: seq<JobStatus>, phase: Phase)
    requires pc.SWrite? && HandOk(pc) && (pc.to == Succeeded || pc.to == Failed)
    requires Flow(row, [pc.m] + rest, phase) && !phase.TurnedAway?
    ensures IsEnd(pc.m) && (phase.Reporting? || phase.Gone? ==> pc.m == phase.last)
  {
    assert ([pc.m] + rest)[0] == pc.m;
  }

  // The agent's own handler ends the job now.
  lemma EndsNow(rows: Rows, pc: Pc, rows': Rows, rest: seq<JobStatus>, job: Delivery)
    requires EndsBy(rows, pc, rows', job.m.id) && HandOk(pc) && Noted(rows, pc, job.m.id) && !job.phase.TurnedAway?
    requires Flow(rows[job.m.id], InHand(pc, job.m.id) + rest, job.phase) && RecordOf(rows, job)
    ensures RecordOf(rows', job)
  {
    hide Flow, HandOk;
    EndingWrite(rows[job.m.id], pc, rest, job.phase);
  }

  // A call changes the row of a job sent to the agent only if it is the agent's handler's,
  // and not once the job has ended.
  lemma OwnRow(s: Sys, t: Thread, o: Outcome, a: AgentId, i: nat)
    requires FlowInv(true, s) && t in s.d.threads && i < |JobsOf(s, a)|
    requires RowsStep(s.d.sv, s.d.dispatched, t, s.d.threads[t], o)
    ensures var id := JobsOf(s, a)[i].m.id; var job := JobsOf(s, a)[i];
      && id in s.d.sv.rows && id in o.sv.rows
      && (HasEnded(s.d.sv.rows, id) ==> o.sv.rows[id] == s.d.sv.rows[id])
      && (o.sv.rows[id] != s.d.sv.rows[id] ==>
            && t == Conn(a) && HandOk(s.d.threads[t])
            && (!job.phase.TurnedAway? ==>
                  Flow(s.d.sv.rows[id], Remaining(s.d.threads[t], UpOf(s, a), id), job.phase)))
  {
    hide Flow, Remaining, HandOk, RowsInv, SmallAttempts, RowsStep;
    var id := JobsOf(s, a)[i].m.id;
    assert FlowOf(true, s, a) && Channel(s, a);
    assert Sent(s.d.dispatched, Conn(a), a, id) by { Delivered(s, a, i); }
    SentRowsAfter(s.d, t, o, id);
  }

  lemma Delivered(s: Sys, a: AgentId, i: nat)
    requires SysInv(s) && i < |JobsOf(s, a)|
    ensures Sent(s.d.dispatched, Conn(a), a, JobsOf(s, a)[i].m.id)
  {
    assert Channel(s, a);
    DeliveredWasSent(s, a, i);
  }

  lemma NewJobs(d: State, t: Thread)
    requires RowsInv(d) && t in d.threads
    ensures d.threads[t].CCreate? ==> IsNew(d.threads[t].job)
  {
    assert PcInv(d.sv.rows, d.dispatched, t, d.threads[t]);
  }

  // ---- Every action.

  // How the deliveries of an agent change: by a step of a worker, or by one more.
  ghost predicate Moved(was: seq<Delivery>, now: seq<Delivery>, i: nat)
    requires i < |now|
  {
    if i >= |was| then now[i].phase.Fresh? || now[i].phase.TurnedAway?
    else
      && now[i].m == was[i].m
      && (|| now[i] == was[i]
          || (was[i].phase.Fresh? && now[i].phase.Busy?)
          || (was[i].phase.Busy? && now[i].phase.Reporting?
              && now[i].phase.last.id == now[i].m.id && now[i].phase.last.attempt == now[i].m.attempt)
          || (was[i].phase.Reporting? && now[i].phase == Gone(was[i].phase.last)))
  }

  lemma JobsMove(s: Sys, act: Act, a: AgentId, i: nat)
    requires Possible(s, act) && i < |JobsOf(Next(s, act), a)|
    ensures Moved(JobsOf(s, a), JobsOf(Next(s, act), a), i)
    ensures act.Call? ==> JobsOf(Next(s, act), a) == JobsOf(s, a)
  {
    hide Advance, Step, RunningReport;
  }

  lemma RowsRest(s: Sys, act: Act)
    requires Possible(s, act) && !act.Call?
    ensures Next(s, act).d.sv.rows == s.d.sv.rows
  {
    hide Advance, Registered, Beaten, RunningReport, FinalReport, Received, Worked;
  }

  lemma RecordKept(s: Sys, act: Act, a: AgentId, id: JobId)
    requires FlowInv(true, s) && NotesInv(s.d, id) && RecordInv(s, a, id) && Possible(s, act)
    ensures RecordInv(Next(s, act), a, id)
  {
    hide Next, Possible, FlowInv, NotesInv, RecordOf, HasEnded, Shows;
    var s' := Next(s, act);
    forall i | 0 <= i < |JobsOf(s', a)| && JobsOf(s', a)[i].m.id == id
      ensures RecordOf(s'.d.sv.rows, JobsOf(s', a)[i])
    {
      JobsMove(s, act, a, i);
      if act.Call? {
        CalledRecord(s, act, a, i);
      } else {
        RowsRest(s, act);
        MovedRecord(s, act, a, i);
      }
    }
  }

  lemma CalledRecord(s: Sys, act: Act, a: AgentId, i: nat)
    requires FlowInv(true, s) && act.Call? && Possible(s, act)
    requires i < |JobsOf(s, a)| && NotesInv(s.d, JobsOf(s, a)[i].m.id) && RecordOf(s.d.sv.rows, JobsOf(s, a)[i])
    ensures RecordOf(Next(s, act).d.sv.rows, JobsOf(s, a)[i])
  {
    hide Advance, Flow, Noted, Shows, InHand, Reports, RowsInv, ChannelsInv, SmallAttempts, RowsStep, EndsBy;
    var job, t, pc := JobsOf(s, a)[i], act.t, s.d.threads[act.t];
    var o := Advance(s.d.sv, pc, act.env);
    RunKeepsRows(s.d, t, act.env, o);
    OwnRow(s, t, o, a, i);
    if !job.phase.TurnedAway? && HasEnded(o.sv.rows, job.m.id) && !HasEnded(s.d.sv.rows, job.m.id) {
      NewJobs(s.d, t);
      OnlyWritesEnd(s.d.sv, pc, act.env, job.m.id);
      EndsNow(s.d.sv.rows, pc, o.sv.rows, Reports(UpOf(s, a), job.m.id), job);
    }
  }

  // While its worker has not made the last report, the job has not ended.
  lemma MovedRecord(s: Sys, act: Act, a: AgentId, i: nat)
    requires FlowInv(true, s) && Possible(s, act) && i < |JobsOf(Next(s, act), a)|
    requires Moved(JobsOf(s, a), JobsOf(Next(s, act), a), i)
    requires i < |JobsOf(s, a)| ==> RecordOf(s.d.sv.rows, JobsOf(s, a)[i])
    ensures RecordOf(s.d.sv.rows, JobsOf(Next(s, act), a)[i])
  {
    hide Next, Possible, SysInv, SmallAttempts, Remaining, HandOk;
    assert FlowOf(true, s, a);
  }

  lemma {:induction false} ExecutionsRecord(states: seq<Sys>, acts: seq<Act>, k: nat, a: AgentId, id: JobId)
    requires IsExecution(states, acts) && k < |states|
    requires forall n | 0 <= n < |acts| :: Gentle(states[n], acts[n]) && Attends(states[n], acts[n], id)
    ensures NotesInv(states[k].d, id) && RecordInv(states[k], a, id)
  {
    hide Next, Possible, FlowInv, NotesInv, RecordInv, Gentle, Attends, SysInv;
    if k == 0 {
      NothingRecorded(states[0], a, id);
    } else {
      ExecutionsRecord(states, acts, k - 1, a, id);
      ExecutionsKeepFlow(true, states, acts, k - 1);
      ExecutionsKeepSys(states, acts, k - 1);
      NotesKept(states[k - 1], acts[k - 1], id);
      RecordKept(states[k - 1], acts[k - 1], a, id);
    }
  }

  lemma NothingRecorded(s: Sys, a: AgentId, id: JobId)
    requires SysStart(s)
    ensures NotesInv(s.d, id) && RecordInv(s, a, id)
  {}

  // Once a worker is gone and its reports have been applied, the row says what the worker said
  // last: its status, its output under the right names, and its message if it gave one.
  lemma OutcomeStored(states: seq<Sys>, acts: seq<Act>, k: nat, a: AgentId, i: nat)
    requires IsExecution(states, acts) && k < |states| && i < |JobsOf(states[k], a)|
    requires forall n | 0 <= n < |acts| ::
               Gentle(states[n], acts[n]) && Attends(states[n], acts[n], JobsOf(states[k], a)[i].m.id)
    requires JobsOf(states[k], a)[i].phase.Gone?
    requires Remaining(PcOf(states[k].d, Conn(a)), UpOf(states[k], a), JobsOf(states[k], a)[i].m.id) == []
    ensures var id, last := JobsOf(states[k], a)[i].m.id, JobsOf(states[k], a)[i].phase.last;
      && id in states[k].d.sv.rows && var row := states[k].d.sv.rows[id];
      && last.id == id && last.attempt == row.attempt && (last.status == 3 || last.status == 4)
      && row.status == (if last.status == 3 then Succeeded else Failed)
      && row.stdout == last.stdout && row.stderr == last.stderr
      && (last.message != "" ==> row.message == last.message)
      && (last.status == 3 && last.outputKey != "" ==> row.outputKey == last.outputKey)
  {
    hide Next, Possible, Gentle, Attends, SysInv;
    OutcomeRecorded(states, acts, k, a, i);
    ExecutionsKeepFlow(true, states, acts, k);
    assert FlowOf(true, states[k], a);
    ExecutionsRecord(states, acts, k, a, JobsOf(states[k], a)[i].m.id);
  }
}
