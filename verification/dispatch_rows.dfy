// What the interleaved handlers keep true of the stored rows when agents report
// only jobs they were sent: terminal rows are frozen, statuses move only along
// legal transitions in spite of the split read and write, and every message
// sent agrees with the row for ever after.
module DispatchRows {
  import opened Options
  import opened OutputPaths
  import opened JobModel
  import opened Messages
  import opened Store
  import opened Dispatch
  import opened DispatchTokens

  // The job whose row a thread reads and writes at its current position.
  function Touched(pc: Pc): Option<JobId> {
    match pc
    case SGet(_, m) => Some(m.id)
    case SMessage(_, m, _) => Some(m.id)
    case SStreams(_, m, _) => Some(m.id)
    case SRead(_, m, _, _) => Some(m.id)
    case SWrite(_, m, _, _) => Some(m.id)
    case _ => Held(pc)
  }

  // An agent requests under its own id. It may report anything, except on a row that
  // names it as the owner although the job was never sent to it.
  predicate Honest(s: State, a: Action) {
    match a
    case Request(c, envelope, _) => envelope == c
    case Report(c, _, m) => c == "" || Reportable(s.sv.rows, s.dispatched, Conn(c), c, m.id)
    case _ => true
  }

  predicate Reportable(rows: Rows, dispatched: map<JobId, Thread>, t: Thread, agent: AgentId, id: JobId) {
    Sent(dispatched, t, agent, id) || (agent != "" && (id in rows ==> rows[id].owner != agent))
  }

  predicate Chosen(rows: Rows, t: Thread, w: Work, status: Status) {
    && t == Conn(w.agent)
    && w.id in rows && rows[w.id].status == status
    && rows[w.id].attempt == w.job.attempt && rows[w.id].spec == w.job.spec
    && w.plan == PlanFor(w.id, w.job.spec, w.job.attempt)
  }

  predicate Claimed(rows: Rows, t: Thread, w: Work, status: Status) {
    && Chosen(rows, t, w, status)
    && rows[w.id].owner == w.agent && rows[w.id].lease == w.lease && w.job.attempt >= 1
  }

  predicate Placed(rows: Rows, t: Thread, w: Work) {
    Claimed(rows, t, w, Assigned) && rows[w.id].outputKey == w.plan.key && rows[w.id].outputPrefix == w.plan.prefix
  }

  predicate Sent(dispatched: map<JobId, Thread>, t: Thread, agent: AgentId, id: JobId) {
    t == Conn(agent) && id in dispatched && dispatched[id] == t
  }

  // The snapshot a status handler works from is still what the row says.
  predicate Current(rows: Rows, m: JobStatus, j: Job) {
    m.id in rows && rows[m.id].status == j.status && !j.status.IsTerminal() && rows[m.id].outputKey == j.outputKey
  }

  predicate KeyFits(m: JobStatus, j: Job, to: Status) {
    to.Succeeded? ==> m.outputKey == "" || m.outputKey == j.outputKey
  }

  // What a thread knows about the row it is working on.
  predicate PcInv(rows: Rows, dispatched: map<JobId, Thread>, t: Thread, pc: Pc) {
    match pc
    case Idle => true
    case RCheck(agent) => t == Conn(agent)
    case RDequeue(agent, _) => t == Conn(agent)
    case RGet(agent, _, _) => t == Conn(agent)
    case RAttempt(w) => Chosen(rows, t, w, Pending) && w.job.attempt < 1
    case RUrls(w) => Chosen(rows, t, w, Pending) && w.job.attempt >= 1
    case RAssign(w) => Chosen(rows, t, w, Pending) && w.job.attempt >= 1
    case RRead(w) => Claimed(rows, t, w, Pending)
    case RWrite(w) => Claimed(rows, t, w, Pending)
    case ROutput(w) => Claimed(rows, t, w, Assigned)
    case RMarshal(w) => Placed(rows, t, w)
    case RCount(w) => Placed(rows, t, w)
    case RSend(w) => Placed(rows, t, w)
    case RRevert(w) => Claimed(rows, t, w, Assigned)
    case RClear(w, committed) => Claimed(rows, t, w, if committed then Assigned else Pending)
    case RRequeue(id) => true
    case SGet(agent, m) => t == Conn(agent) && Reportable(rows, dispatched, t, agent, m.id)
    case SMessage(agent, m, j) => Sent(dispatched, t, agent, m.id) && Current(rows, m, j)
    case SStreams(agent, m, j) => Sent(dispatched, t, agent, m.id) && Current(rows, m, j)
    case SRead(agent, m, j, to) => Sent(dispatched, t, agent, m.id) && Current(rows, m, j) && KeyFits(m, j, to)
    case SWrite(agent, m, j, to) =>
      Sent(dispatched, t, agent, m.id) && Current(rows, m, j) && KeyFits(m, j, to) && j.status.CanTransitionTo(to)
    case SCount(agent) => t == Conn(agent)
    case CCreate(job) => IsNew(job) && job.id !in rows
    case CEnqueue(id) => true
  }

  ghost predicate ThreadsInv(s: State) {
    forall t | t in s.threads :: PcInv(s.sv.rows, s.dispatched, t, s.threads[t])
  }

  // A sent job belongs to the connection it went to and has left PENDING for good.
  predicate SentRow(rows: Rows, id: JobId, t: Thread) {
    && t.Conn? && id in rows && rows[id].owner == t.agent
    && rows[id].status.IsValid() && rows[id].status != Pending
  }

  ghost predicate SentInv(rows: Rows, dispatched: map<JobId, Thread>) {
    forall id | id in dispatched :: SentRow(rows, id, dispatched[id])
  }

  // The message carries the work that the job was created for.
  predicate Carries(m: JobAssigned, spec: Spec) {
    && (m.forwardHttp <==> spec.jobType == FORWARD_HTTP)
    && m.command == (if m.forwardHttp then "" else spec.command)
    && (m.forward.Some? <==> m.forwardHttp)
    && (m.forward.Some? ==>
          && m.forward.value.url == spec.forwardUrl && m.forward.value.verb == spec.forwardMethod
          && m.forward.value.headers == spec.forwardHeaders && m.forward.value.body == spec.forwardBody
          && m.forward.value.timeout == Int32(spec.forwardTimeout))
    && m.mode == ModeToProto(spec.inputForward)
    && if spec.inputBucket != "" && spec.inputKey != ""
       then m.inputKey == spec.inputKey && m.inputDownload == Presigned(Download(spec.inputKey))
       else m.inputKey == "" && m.inputDownload == NoAccess
  }

  predicate Agrees(rows: Rows, m: JobAssigned) {
    && m.id in rows
    && m.outputKey == rows[m.id].outputKey && m.outputPrefix == rows[m.id].outputPrefix
    && rows[m.id].attempt >= 1 && m.outputKey == PlanFor(m.id, rows[m.id].spec, rows[m.id].attempt).key
    && m.outputPrefix == PlanFor(m.id, rows[m.id].spec, rows[m.id].attempt).prefix
    && m.outputUpload == Presigned(Upload(m.outputKey))
    && m.attempt == Int32(rows[m.id].attempt) && m.lease == rows[m.id].lease && Carries(m, rows[m.id].spec)
  }

  ghost predicate LogInv(rows: Rows, log: map<Thread, seq<JobAssigned>>) {
    forall t, i | t in log && 0 <= i < |log[t]| :: Agrees(rows, log[t][i])
  }

  ghost predicate RowsInv(s: State) {
    TokenInv(s) && ThreadsInv(s) && SentInv(s.sv.rows, s.dispatched) && LogInv(s.sv.rows, s.log)
  }

  // How a row may change in one step.
  predicate LegalChange(j: Job, j': Job) {
    && j'.id == j.id && j'.spec == j.spec
    && (j.status.IsTerminal() ==> j' == j)
    && (j'.status == j.status || j.status.CanTransitionTo(j'.status))
  }

  predicate SameRow(rows: Rows, rows': Rows, id: JobId) {
    (id in rows <==> id in rows') && (id in rows ==> rows[id] == rows'[id])
  }

  lemma AdvanceFrame(sv: Server, pc: Pc, env: Env)
    ensures forall id | Touched(pc) != Some(id) :: SameRow(sv.rows, Advance(sv, pc, env).sv.rows, id)
  {
    hide PlanFor, Assignment;
  }

  // No call writes the name of an agent other than the one it works for.
  ghost predicate OwnersOf(sv: Server, t: Thread, o: Outcome) {
    forall id | id in o.sv.rows && o.sv.rows[id].owner != "" ::
      (id in sv.rows && o.sv.rows[id].owner == sv.rows[id].owner) || t == Conn(o.sv.rows[id].owner)
  }

  lemma AdvanceOwners(sv: Server, dispatched: map<JobId, Thread>, t: Thread, pc: Pc, env: Env)
    requires PcInv(sv.rows, dispatched, t, pc)
    ensures OwnersOf(sv, t, Advance(sv, pc, env))
    ensures pc.SGet? ==> Advance(sv, pc, env).sv.rows == sv.rows
  {
    if IsEarly(pc) || IsLate(pc) {
      RequestOwners(sv, dispatched, t, pc, env);
    } else {
      OtherOwners(sv, dispatched, t, pc, env);
    }
  }

  lemma RequestOwners(sv: Server, dispatched: map<JobId, Thread>, t: Thread, pc: Pc, env: Env)
    requires PcInv(sv.rows, dispatched, t, pc) && (IsEarly(pc) || IsLate(pc))
    ensures OwnersOf(sv, t, Advance(sv, pc, env))
  {
    hide PlanFor, Assignment;
  }

  lemma OtherOwners(sv: Server, dispatched: map<JobId, Thread>, t: Thread, pc: Pc, env: Env)
    requires PcInv(sv.rows, dispatched, t, pc) && !IsEarly(pc) && !IsLate(pc)
    ensures OwnersOf(sv, t, Advance(sv, pc, env))
    ensures pc.SGet? ==> Advance(sv, pc, env).sv.rows == sv.rows
  {
    hide PlanFor, Assignment;
  }

  lemma PcFrame(rows: Rows, rows': Rows, dispatched: map<JobId, Thread>, dispatched': map<JobId, Thread>, t: Thread,
      pc: Pc)
    requires PcInv(rows, dispatched, t, pc)
    requires Touched(pc).Some? ==> SameRow(rows, rows', Touched(pc).value)
    requires forall id | id in dispatched :: id in dispatched' && dispatched'[id] == dispatched[id]
    ensures PcInv(rows', dispatched', t, pc)
  {}

  // A report that is yet to be checked stays one that may be made.
  lemma UncheckedFrame(s: State, t: Thread, o: Outcome, u: Thread, dispatched': map<JobId, Thread>)
    requires u in s.threads && u != t && s.threads[u].SGet? && PcInv(s.sv.rows, s.dispatched, u, s.threads[u])
    requires OwnersOf(s.sv, t, o)
    requires forall id | id in s.dispatched :: id in dispatched' && dispatched'[id] == s.dispatched[id]
    ensures PcInv(o.sv.rows, dispatched', u, s.threads[u])
  {}

  // Two threads never work on the same row, unless one has yet to check its report.
  lemma TouchedApart(s: State, t: Thread, u: Thread)
    requires RowsInv(s) && t in s.threads && u in s.threads && t != u && !s.threads[t].SGet? && !s.threads[u].SGet?
    ensures Touched(s.threads[t]).Some? ==> Touched(s.threads[t]) != Touched(s.threads[u])
  {
    assert HeldBy(s, t) == Held(s.threads[t]) && HeldBy(s, u) == Held(s.threads[u]);
    assert PcInv(s.sv.rows, s.dispatched, t, s.threads[t]) && PcInv(s.sv.rows, s.dispatched, u, s.threads[u]);
  }

  predicate IsEarly(pc: Pc) {
    pc.RCheck? || pc.RDequeue? || pc.RGet? || pc.RAttempt? || pc.RUrls? || pc.RAssign?
  }

  predicate IsLate(pc: Pc) {
    pc.RRead? || pc.RWrite? || pc.ROutput? || pc.RMarshal? || pc.RCount? || pc.RSend?
  }

  predicate IsReport(pc: Pc) {
    pc.SGet? || pc.SMessage? || pc.SStreams? || pc.SRead? || pc.SWrite?
  }

  // One step of a thread keeps what it knows and changes its row legally.
  ghost predicate GoodStep(sv: Server, dispatched: map<JobId, Thread>, t: Thread, pc: Pc, o: Outcome) {
    && PcInv(o.sv.rows, dispatched, t, o.pc)
    && (Touched(pc).Some? && Touched(pc).value in sv.rows ==>
          Touched(pc).value in o.sv.rows && LegalChange(sv.rows[Touched(pc).value], o.sv.rows[Touched(pc).value]))
  }

  predicate SameClaim(j: Job, j': Job) {
    && j'.owner == j.owner && j'.lease == j.lease && j'.attempt == j.attempt
    && j'.outputKey == j.outputKey && j'.outputPrefix == j.outputPrefix
  }

  // Everything the invariant needs to know about one call.
  ghost predicate RowsStep(sv: Server, dispatched: map<JobId, Thread>, t: Thread, pc: Pc, o: Outcome) {
    && GoodStep(sv, dispatched, t, pc, o)
    && (forall id | Touched(pc) != Some(id) :: SameRow(sv.rows, o.sv.rows, id))
    && (IsReport(pc) ==> forall id | id in sv.rows :: id in o.sv.rows && SameClaim(sv.rows[id], o.sv.rows[id]))
    && (o.sent.Some? ==> o.sv.rows == sv.rows && SentRow(sv.rows, o.sent.value.id, t) && Agrees(sv.rows, o.sent.value))
    && OwnersOf(sv, t, o) && (pc.SGet? ==> o.sv.rows == sv.rows)
  }

  lemma EarlyStep(sv: Server, dispatched: map<JobId, Thread>, t: Thread, pc: Pc, env: Env)
    requires PcInv(sv.rows, dispatched, t, pc) && IsEarly(pc)
    ensures GoodStep(sv, dispatched, t, pc, Advance(sv, pc, env)) && Advance(sv, pc, env).sent.None?
  {
    hide Assignment, Int32;
  }

  lemma LateStep(sv: Server, dispatched: map<JobId, Thread>, t: Thread, pc: Pc, env: Env)
    requires PcInv(sv.rows, dispatched, t, pc) && IsLate(pc)
    ensures GoodStep(sv, dispatched, t, pc, Advance(sv, pc, env))
    ensures var o := Advance(sv, pc, env);
      o.sent.Some? ==> o.sv.rows == sv.rows && SentRow(sv.rows, o.sent.value.id, t) && Agrees(sv.rows, o.sent.value)
  {
    hide PlanFor, Int32;
  }

  lemma OtherStep(sv: Server, dispatched: map<JobId, Thread>, t: Thread, pc: Pc, env: Env)
    requires PcInv(sv.rows, dispatched, t, pc) && !IsEarly(pc) && !IsLate(pc) && !IsReport(pc)
    ensures GoodStep(sv, dispatched, t, pc, Advance(sv, pc, env)) && Advance(sv, pc, env).sent.None?
  {
    hide PlanFor, Assignment;
  }

  lemma ReportStep(sv: Server, dispatched: map<JobId, Thread>, t: Thread, pc: Pc, env: Env)
    requires PcInv(sv.rows, dispatched, t, pc) && IsReport(pc)
    ensures GoodStep(sv, dispatched, t, pc, Advance(sv, pc, env)) && Advance(sv, pc, env).sent.None?
    ensures Advance(sv, pc, env).sv.rows.Keys == sv.rows.Keys
    ensures forall id | id in sv.rows :: SameClaim(sv.rows[id], Advance(sv, pc, env).sv.rows[id])
  {
    hide PlanFor, Assignment, PcInv, LegalChange;
    if pc.SRead? || pc.SWrite? {
      MoveStep(sv, dispatched, t, pc, env);
    } else {
      NoteStep(sv, dispatched, t, pc, env);
    }
  }

  lemma NoteStep(sv: Server, dispatched: map<JobId, Thread>, t: Thread, pc: Pc, env: Env)
    requires PcInv(sv.rows, dispatched, t, pc) && (pc.SGet? || pc.SMessage? || pc.SStreams?)
    ensures GoodStep(sv, dispatched, t, pc, Advance(sv, pc, env))
  {
    hide PlanFor, Assignment;
  }

  lemma MoveStep(sv: Server, dispatched: map<JobId, Thread>, t: Thread, pc: Pc, env: Env)
    requires PcInv(sv.rows, dispatched, t, pc) && (pc.SRead? || pc.SWrite?)
    ensures GoodStep(sv, dispatched, t, pc, Advance(sv, pc, env))
  {
    hide PlanFor, Assignment;
  }

  lemma AdvanceRows(sv: Server, dispatched: map<JobId, Thread>, t: Thread, pc: Pc, env: Env, o: Outcome)
    requires PcInv(sv.rows, dispatched, t, pc) && o == Advance(sv, pc, env)
    ensures RowsStep(sv, dispatched, t, pc, o)
  {
    hide Advance, PcInv, Agrees, SentRow, SameRow, SameClaim, LegalChange, OwnersOf;
    AdvanceFrame(sv, pc, env);
    AdvanceOwners(sv, dispatched, t, pc, env);
    if IsEarly(pc) { EarlyStep(sv, dispatched, t, pc, env); }
    else if IsLate(pc) { LateStep(sv, dispatched, t, pc, env); }
    else if IsReport(pc) { ReportStep(sv, dispatched, t, pc, env); }
    else { OtherStep(sv, dispatched, t, pc, env); }
  }

  lemma AfterKeepsThreads(s: State, t: Thread, o: Outcome)
    requires RowsInv(s) && t in s.threads && RowsStep(s.sv, s.dispatched, t, s.threads[t], o)
    requires o.sent.Some? ==> o.sent.value.id !in s.dispatched
    ensures ThreadsInv(After(s, t, o))
  {
    hide TokenInv, LogInv, SentInv;
    var s' := After(s, t, o);
    forall u | u in s'.threads ensures PcInv(s'.sv.rows, s'.dispatched, u, s'.threads[u]) {
      if u == t {
        PcFrame(o.sv.rows, o.sv.rows, s.dispatched, s'.dispatched, t, o.pc);
      } else if s.threads[u].SGet? {
        UncheckedFrame(s, t, o, u, s'.dispatched);
      } else {
        if !s.threads[t].SGet? { TouchedApart(s, u, t); }
        PcFrame(s.sv.rows, o.sv.rows, s.dispatched, s'.dispatched, u, s.threads[u]);
      }
    }
  }

  // Rows of jobs that were already sent change only under the reports of their owner.
  lemma SentRowsAfter(s: State, t: Thread, o: Outcome, id: JobId)
    requires RowsInv(s) && t in s.threads && RowsStep(s.sv, s.dispatched, t, s.threads[t], o)
    requires id in s.dispatched
    ensures id in s.sv.rows && id in o.sv.rows
    ensures SameClaim(s.sv.rows[id], o.sv.rows[id]) && LegalChange(s.sv.rows[id], o.sv.rows[id])
    ensures s.sv.rows[id] != o.sv.rows[id] ==> t == s.dispatched[id]
  {
    var pc := s.threads[t];
    assert SentRow(s.sv.rows, id, s.dispatched[id]);
    assert HeldBy(s, t) == Held(pc) && PcInv(s.sv.rows, s.dispatched, t, pc);
    if Touched(pc) == Some(id) {
      assert IsReport(pc);
    } else {
      assert SameRow(s.sv.rows, o.sv.rows, id);
    }
  }

  lemma AfterKeepsSent(s: State, t: Thread, o: Outcome)
    requires RowsInv(s) && t in s.threads && RowsStep(s.sv, s.dispatched, t, s.threads[t], o)
    ensures SentInv(After(s, t, o).sv.rows, After(s, t, o).dispatched)
    ensures LogInv(After(s, t, o).sv.rows, After(s, t, o).log)
  {
    hide PcInv, PlanFor;
    var s' := After(s, t, o);
    forall id | id in s'.dispatched ensures SentRow(s'.sv.rows, id, s'.dispatched[id]) {
      if !(o.sent.Some? && o.sent.value.id == id) {
        assert SentRow(s.sv.rows, id, s.dispatched[id]);
        SentRowsAfter(s, t, o, id);
        TransitionsClimb(s.sv.rows[id].status, o.sv.rows[id].status);
      }
    }
    forall u, i | u in s'.log && 0 <= i < |s'.log[u]| ensures Agrees(s'.sv.rows, s'.log[u][i]) {
      var m := s'.log[u][i];
      if u in s.log && i < |s.log[u]| {
        assert m == s.log[u][i] && Agrees(s.sv.rows, m);
        SentRowsAfter(s, t, o, m.id);
      } else {
        assert m == o.sent.value;
      }
    }
  }

  lemma StartKeepsThreads(s: State, t: Thread, pc: Pc)
    requires ThreadsInv(s) && PcInv(s.sv.rows, s.dispatched, t, pc)
    ensures ThreadsInv(s.(threads := s.threads[t := pc]))
  {}

  // The heart of the matter: one step of any thread keeps the invariant, and
  // every row changes legally.
  lemma RowsKept(s: State, a: Action)
    requires RowsInv(s) && Enabled(s, a) && Honest(s, a)
    ensures RowsInv(Step(s, a))
    ensures forall id | id in s.sv.rows ::
              id in Step(s, a).sv.rows && LegalChange(s.sv.rows[id], Step(s, a).sv.rows[id])
  {
    TokensKept(s, a);
    if a.Run? {
      RunKeepsRows(s, a.thread, a.env, Advance(s.sv, s.threads[a.thread], a.env));
    } else {
      MessageKeepsThreads(s, a);
    }
  }

  // An arriving message or request changes no row and no log.
  lemma MessageKeepsThreads(s: State, a: Action)
    requires TokensKnown(s) && ThreadsInv(s) && Enabled(s, a) && Honest(s, a) && !a.Run?
    ensures ThreadsInv(Step(s, a))
    ensures Step(s, a).sv.rows == s.sv.rows && Step(s, a).log == s.log && Step(s, a).dispatched == s.dispatched
  {
    match a
    case Create(n, job) =>
      StartKeepsThreads(s, Http(n), CCreate(job));
    case Request(c, envelope, _) =>
      StartKeepsThreads(s, Conn(c), RCheck(envelope));
    case Report(c, envelope, m) =>
      if c == envelope && c != "" { StartKeepsThreads(s, Conn(c), SGet(envelope, m)); }
    case _ =>
  }

  lemma RunKeepsRows(s: State, t: Thread, env: Env, o: Outcome)
    requires RowsInv(s) && t in s.threads && o == Advance(s.sv, s.threads[t], env)
    ensures ThreadsInv(After(s, t, o)) && SentInv(After(s, t, o).sv.rows, After(s, t, o).dispatched)
    ensures LogInv(After(s, t, o).sv.rows, After(s, t, o).log)
    ensures RowsStep(s.sv, s.dispatched, t, s.threads[t], o)
    ensures forall id | id in s.sv.rows :: id in o.sv.rows && LegalChange(s.sv.rows[id], o.sv.rows[id])
  {
    AdvanceRows(s.sv, s.dispatched, t, s.threads[t], env, o);
    var move := AdvanceMoves(s.sv, s.threads[t], env);
    assert HeldBy(s, t) == Held(s.threads[t]);
    AfterKeepsThreads(s, t, o);
    AfterKeepsSent(s, t, o);
    forall id | id in s.sv.rows ensures id in o.sv.rows && LegalChange(s.sv.rows[id], o.sv.rows[id]) {
      if Touched(s.threads[t]) != Some(id) { assert SameRow(s.sv.rows, o.sv.rows, id); }
    }
  }

  ghost predicate IsHonestRun(states: seq<State>, actions: seq<Action>) {
    IsRun(states, actions) && forall i | 0 <= i < |actions| :: Honest(states[i], actions[i])
  }

  lemma {:induction false} RunsKeepRows(states: seq<State>, actions: seq<Action>, k: nat)
    requires IsHonestRun(states, actions) && k < |states|
    ensures RowsInv(states[k])
  {
    if k == 0 {
    } else {
      RunsKeepRows(states, actions, k - 1);
      RowsKept(states[k - 1], actions[k - 1]);
    }
  }

  lemma {:induction false} RowsClimb(states: seq<State>, actions: seq<Action>, i: nat, k: nat, id: JobId)
    requires IsHonestRun(states, actions) && i <= k < |states| && id in states[i].sv.rows
    ensures id in states[k].sv.rows
    ensures states[i].sv.rows[id].status.IsTerminal() ==> states[k].sv.rows[id] == states[i].sv.rows[id]
    ensures states[k].sv.rows[id].spec == states[i].sv.rows[id].spec
    decreases k - i
  {
    if i < k {
      RunsKeepRows(states, actions, i);
      RowsKept(states[i], actions[i]);
      RowsClimb(states, actions, i + 1, k, id);
    }
  }

  // The number of status changes of a job between two states of a run.
  ghost function StatusChanges(states: seq<State>, i: nat, k: nat, id: JobId): nat
    requires i <= k < |states| && forall n | i <= n <= k :: id in states[n].sv.rows
    decreases k - i
  {
    if i == k then 0
    else
      (if states[i].sv.rows[id].status != states[i + 1].sv.rows[id].status then 1 else 0)
      + StatusChanges(states, i + 1, k, id)
  }

  lemma {:induction false} ChangesClimb(states: seq<State>, actions: seq<Action>, i: nat, k: nat, id: JobId)
    requires IsHonestRun(states, actions) && i <= k < |states| && id in states[i].sv.rows
    ensures forall n | i <= n <= k :: id in states[n].sv.rows
    ensures states[i].sv.rows[id].status.Rank() + StatusChanges(states, i, k, id) <= states[k].sv.rows[id].status.Rank()
    decreases k - i
  {
    if i < k {
      RunsKeepRows(states, actions, i);
      RowsKept(states[i], actions[i]);
      TransitionsClimb(states[i].sv.rows[id].status, states[i + 1].sv.rows[id].status);
      ChangesClimb(states, actions, i + 1, k, id);
    }
  }

  // Over any interleaving, with any calls failing: a job changes status at most
  // three times, and nothing of its row changes once it is terminal.
  lemma TerminalRowsFrozen(states: seq<State>, actions: seq<Action>, i: nat, k: nat, id: JobId)
    requires IsHonestRun(states, actions) && i <= k < |states| && id in states[i].sv.rows
    ensures forall n | i <= n <= k :: id in states[n].sv.rows
    ensures StatusChanges(states, i, k, id) <= 3
    ensures states[i].sv.rows[id].status.IsTerminal() ==> states[k].sv.rows[id] == states[i].sv.rows[id]
  {
    ChangesClimb(states, actions, i, k, id);
    RowsClimb(states, actions, i, k, id);
    TransitionsClimb(states[k].sv.rows[id].status, Pending);
  }

  // Whatever was sent agrees with the row in every later state: the work itself, key, prefix,
  // lease, the key the upload URL was made for and, within 32 bits, the attempt.
  lemma SentMessagesAgree(states: seq<State>, actions: seq<Action>, k: nat, t: Thread, i: nat)
    requires IsHonestRun(states, actions) && k < |states| && i < |LogOf(states[k], t)|
    ensures var m := LogOf(states[k], t)[i]; var rows := states[k].sv.rows;
      && m.id in rows
      && m.outputKey == rows[m.id].outputKey
         == KeyOf(m.id, rows[m.id].attempt, FileExtension(rows[m.id].spec.outputExtension))
      && m.outputUpload == Presigned(Upload(rows[m.id].outputKey))
      && m.outputPrefix == rows[m.id].outputPrefix == PrefixOf(m.id, rows[m.id].attempt)
      && m.outputPrefix <= m.outputKey
      && m.lease == rows[m.id].lease && t == Conn(rows[m.id].owner) && Carries(m, rows[m.id].spec)
      && (m.attempt == rows[m.id].attempt <==> -0x8000_0000 <= rows[m.id].attempt < 0x8000_0000)
  {
    RunsKeepRows(states, actions, k);
    var m := LogOf(states[k], t)[i];
    var row := states[k].sv.rows[m.id];
    assert Agrees(states[k].sv.rows, m) && SentRow(states[k].sv.rows, m.id, t);
    Int32Exact(row.attempt);
    var p := PlanFor(m.id, row.spec, row.attempt);
  }

  // A row appears only when a creating thread stores its job, and such threads are
  // started by requests only.
  lemma NewRow(sv: Server, pc: Pc, env: Env, id: JobId)
    ensures !Advance(sv, pc, env).pc.CCreate?
    ensures id !in sv.rows && id in Advance(sv, pc, env).sv.rows ==>
              pc.CCreate? && pc.job.id == id && Advance(sv, pc, env).sv.rows[id] == pc.job
  {
    hide PlanFor, Assignment;
  }

  ghost predicate Requested(actions: seq<Action>, k: nat, id: JobId, spec: Spec)
    requires k <= |actions|
  {
    exists j | 0 <= j < k :: actions[j].Create? && actions[j].job.id == id && actions[j].job.spec == spec
  }

  lemma StepCreator(s: State, a: Action, t: Thread)
    requires Enabled(s, a) && PcOf(Step(s, a), t).CCreate?
    ensures PcOf(s, t) == PcOf(Step(s, a), t) || (a.Create? && a.job == PcOf(Step(s, a), t).job)
  {
    hide Advance;
    if a.Run? { NewRow(s.sv, PcOf(s, a.thread), a.env, ""); }
  }

  lemma StepRow(s: State, a: Action, id: JobId)
    requires Enabled(s, a) && id !in s.sv.rows && id in Step(s, a).sv.rows
    ensures a.Run? && PcOf(s, a.thread).CCreate? && PcOf(s, a.thread).job.id == id
    ensures Step(s, a).sv.rows[id] == PcOf(s, a.thread).job
  {
    hide Advance;
    if a.Run? { NewRow(s.sv, PcOf(s, a.thread), a.env, id); }
  }

  lemma {:induction false} CreatorsWereRequested(states: seq<State>, actions: seq<Action>, k: nat, t: Thread)
    requires IsRun(states, actions) && k < |states| && PcOf(states[k], t).CCreate?
    ensures Requested(actions, k, PcOf(states[k], t).job.id, PcOf(states[k], t).job.spec)
  {
    hide Step, Enabled;
    StepCreator(states[k - 1], actions[k - 1], t);
    if PcOf(states[k], t) == PcOf(states[k - 1], t) {
      CreatorsWereRequested(states, actions, k - 1, t);
    }
  }

  // Every stored job does, at any time, the work of the request that created it.
  lemma {:induction false} RowsWereRequested(states: seq<State>, actions: seq<Action>, k: nat, id: JobId)
    requires IsHonestRun(states, actions) && k < |states| && id in states[k].sv.rows
    ensures Requested(actions, k, id, states[k].sv.rows[id].spec)
  {
    hide Step, Enabled, Honest, RowsInv;
    RunsKeepRows(states, actions, k - 1);
    RowsKept(states[k - 1], actions[k - 1]);
    if id in states[k - 1].sv.rows {
      RowsWereRequested(states, actions, k - 1, id);
    } else {
      StepRow(states[k - 1], actions[k - 1], id);
      CreatorsWereRequested(states, actions, k - 1, actions[k - 1].thread);
    }
  }

  // Two messages never name the same upload: their keys differ, and neither output
  // prefix lies inside the other.
  lemma OutputsNeverCollide(states: seq<State>, actions: seq<Action>, k: nat, t: Thread, i: nat, u: Thread, j: nat)
    requires IsHonestRun(states, actions) && k < |states| && (t, i) != (u, j)
    requires i < |LogOf(states[k], t)| && j < |LogOf(states[k], u)|
    requires '/' !in LogOf(states[k], t)[i].id && '/' !in LogOf(states[k], u)[j].id
    ensures var m, n := LogOf(states[k], t)[i], LogOf(states[k], u)[j];
      && m.outputKey != n.outputKey && m.outputUpload != n.outputUpload
      && !(m.outputPrefix <= n.outputPrefix) && !(n.outputPrefix <= m.outputPrefix)
  {
    hide KeyOf, PrefixOf, FileExtension;
    var m, n := LogOf(states[k], t)[i], LogOf(states[k], u)[j];
    AtMostOneDispatch(states, actions, k, m.id);
    SentMessagesAgree(states, actions, k, t, i);
    SentMessagesAgree(states, actions, k, u, j);
    var a, b := states[k].sv.rows[m.id], states[k].sv.rows[n.id];
    if m.outputKey == n.outputKey {
      KeysAreInjective(m.id, a.attempt, FileExtension(a.spec.outputExtension), n.id, b.attempt,
                       FileExtension(b.spec.outputExtension));
    }
    if m.outputPrefix <= n.outputPrefix { PrefixesAreFree(m.id, a.attempt, n.id, b.attempt); }
    if n.outputPrefix <= m.outputPrefix { PrefixesAreFree(n.id, b.attempt, m.id, a.attempt); }
  }

  predicate HasSucceeded(rows: Rows, id: JobId) {
    id in rows && rows[id].status == Succeeded
  }

  // A job becomes SUCCEEDED only by a report that names no output key, or the stored one.
  lemma SuccessNeedsKey(s: State, a: Action, id: JobId)
    requires RowsInv(s) && Enabled(s, a) && Honest(s, a)
    ensures HasSucceeded(Step(s, a).sv.rows, id) && !HasSucceeded(s.sv.rows, id) ==>
              && a.Run? && a.thread in s.threads && s.threads[a.thread].SWrite? && s.threads[a.thread].m.id == id
              && id in s.sv.rows
              && s.threads[a.thread].m.outputKey in ["", s.sv.rows[id].outputKey]
  {
    if a.Run? && HasSucceeded(Step(s, a).sv.rows, id) && !HasSucceeded(s.sv.rows, id) {
      assert PcInv(s.sv.rows, s.dispatched, a.thread, s.threads[a.thread]);
      OnlyWritesSucceed(s.sv, s.threads[a.thread], a.env, id);
    } else if !a.Run? {
      MessageKeepsThreads(s, a);
    }
  }

  lemma OnlyWritesSucceed(sv: Server, pc: Pc, env: Env, id: JobId)
    requires !HasSucceeded(sv.rows, id) && (pc.CCreate? ==> IsNew(pc.job))
    requires HasSucceeded(Advance(sv, pc, env).sv.rows, id)
    ensures id in sv.rows && pc.SWrite? && pc.m.id == id && pc.to == Succeeded
  {
    hide PlanFor, Assignment;
  }
}
