// The registry's running-jobs counter against the job table: the counter is the
// number of the agent's ASSIGNED and RUNNING jobs until one of three things
// happens, and from then on it is not.
module DispatchCapacity {
  import opened Options
  import opened JobModel
  import opened Store
  import opened Registry
  import opened Dispatch
  import opened DispatchRows

  predicate IsActive(j: Job, a: AgentId) {
    j.owner == a && (j.status == Assigned || j.status == Running)
  }

  function Active(rows: Rows, a: AgentId): set<JobId> {
    set id | id in rows && IsActive(rows[id], a)
  }

  // Active jobs that the counter does not show yet (1), or still shows (-1),
  // while the agent's handler is between its store write and its registry call.
  function Lag(pc: Pc): int {
    match pc
    case ROutput(_) => 1
    case RMarshal(_) => 1
    case RCount(_) => 1
    case RRevert(_) => 1
    case RClear(_, committed) => if committed then 1 else 0
    case SCount(_) => -1
    case _ => 0
  }

  // Between the capacity check and the increment, or the end of a failed assignment.
  predicate Admitted(pc: Pc) {
    pc.RDequeue? || pc.RGet? || pc.RAttempt? || pc.RUrls? || pc.RAssign? || pc.RRead? || pc.RWrite?
    || pc.ROutput? || pc.RMarshal? || pc.RCount? || pc.RRevert? || (pc.RClear? && pc.committed)
  }

  function Ceiling(info: Info): int {
    if info.max < 0 then 0 else info.max
  }

  predicate Tallied(sv: Server, pc: Pc, a: AgentId) {
    a in sv.agents && |Active(sv.rows, a)| == sv.agents[a].running + Lag(pc) && sv.agents[a].running >= 0
  }

  predicate Within(sv: Server, pc: Pc, a: AgentId) {
    a in sv.agents ==>
      && sv.agents[a].running <= Ceiling(sv.agents[a])
      && (Admitted(pc) ==> sv.agents[a].running < sv.agents[a].max)
  }

  // Before the agent first registers it has no active jobs and is given nothing.
  predicate Unknown(sv: Server, pc: Pc, a: AgentId) {
    a !in sv.agents && Active(sv.rows, a) == {} && (pc.Idle? || pc.RCheck? || pc.SGet?)
  }

  predicate AccountInv(sv: Server, pc: Pc, a: AgentId) {
    Unknown(sv, pc, a) || Tallied(sv, pc, a)
  }

  ghost predicate CapacityInv(s: State, a: AgentId) {
    RowsInv(s) && AccountInv(s.sv, PcOf(s, Conn(a)), a)
  }

  // A call of the agent's handler that upsets its account: the owner of an ASSIGNED job
  // cannot be cleared, or the agent is offline when one of its jobs ends.
  predicate CallUpsets(agents: Agents, pc: Pc, env: Env, a: AgentId) {
    (pc.RClear? && pc.committed && env.fails) || (pc.SCount? && Lookup(agents, a, env.now).None?)
  }

  // What upsets the account: one of these, or a heartbeat that says otherwise.
  predicate Upsets(s: State, act: Action, a: AgentId) {
    a in s.sv.agents &&
    match act
    case Heartbeat(c, payload, _, running, _) => c == payload == a && running != s.sv.agents[a].running
    case Run(t, env) => t == Conn(a) && CallUpsets(s.sv.agents, PcOf(s, t), env, a)
    case _ => false
  }

  // Registering anew with a limit below the jobs at hand.
  predicate Lowers(s: State, act: Action, a: AgentId) {
    a in s.sv.agents && act.Register? && act.conn == a && s.sv.agents[a].running > (if act.max < 0 then 0 else act.max)
  }

  function Weight(rows: Rows, id: JobId, a: AgentId): int {
    if id in rows && IsActive(rows[id], a) then 1 else 0
  }

  lemma ActiveWithout(rows: Rows, a: AgentId, id: JobId)
    ensures |Active(rows, a)| == |Active(rows, a) - {id}| + Weight(rows, id, a)
  {
    if Weight(rows, id, a) == 1 {
      assert Active(rows, a) == (Active(rows, a) - {id}) + {id};
    } else {
      assert Active(rows, a) == Active(rows, a) - {id};
    }
  }

  // When one row changes, the number of active jobs changes by its weight.
  lemma ActiveChange(rows: Rows, rows': Rows, a: AgentId, id: JobId)
    requires forall i | i != id :: SameRow(rows, rows', i)
    ensures |Active(rows', a)| == |Active(rows, a)| - Weight(rows, id, a) + Weight(rows', id, a)
  {
    ActiveWithout(rows, a, id);
    ActiveWithout(rows', a, id);
    assert Active(rows, a) - {id} == Active(rows', a) - {id} by {
      forall i ensures i in Active(rows, a) - {id} <==> i in Active(rows', a) - {id} {
        if i != id { assert SameRow(rows, rows', i); }
      }
    }
  }

  // The counter's distance from the row that a call touches, before and after.
  function Gap(sv: Server, pc: Pc, o: Outcome, a: AgentId, id: JobId): int
    requires a in sv.agents && a in o.sv.agents
  {
    (o.sv.agents[a].running + Lag(o.pc) - Weight(o.sv.rows, id, a))
    - (sv.agents[a].running + Lag(pc) - Weight(sv.rows, id, a))
  }

  // What one call of the agent's own handler does to its record.
  predicate RecordStep(info: Info, pc: Pc, info': Info, pc': Pc) {
    && info'.max == info.max
    && (info'.running == info.running
        || (pc.RCount? && pc'.RSend? && info'.running == info.running + 1)
        || (pc.SCount? && pc'.Idle? && info'.running == info.running - 1 >= 0))
    && (Admitted(pc') ==> Admitted(pc) || (pc.RCheck? && info.running < info.max))
  }

  ghost predicate Balanced(sv: Server, pc: Pc, env: Env, o: Outcome, a: AgentId, id: JobId) {
    && a in sv.agents && a in o.sv.agents
    && RecordStep(sv.agents[a], pc, o.sv.agents[a], o.pc)
    && (Gap(sv, pc, o, a, id) == 0 <==> !CallUpsets(sv.agents, pc, env, a))
  }

  lemma BalancedEarly(sv: Server, dispatched: map<JobId, Thread>, pc: Pc, env: Env, a: AgentId, id: JobId)
    requires PcInv(sv.rows, dispatched, Conn(a), pc) && IsEarly(pc) && a in sv.agents
    requires Touched(pc).Some? ==> Touched(pc).value == id
    ensures Balanced(sv, pc, env, Advance(sv, pc, env), a, id)
  {
    hide PlanFor, Assignment;
  }

  lemma BalancedLate(sv: Server, dispatched: map<JobId, Thread>, pc: Pc, env: Env, a: AgentId, id: JobId)
    requires PcInv(sv.rows, dispatched, Conn(a), pc) && IsLate(pc) && a in sv.agents
    requires Touched(pc).Some? ==> Touched(pc).value == id
    ensures Balanced(sv, pc, env, Advance(sv, pc, env), a, id)
  {
    hide PlanFor, Assignment;
  }

  lemma BalancedCheck(sv: Server, pc: Pc, env: Env, a: AgentId, id: JobId)
    requires pc.SGet? && a in sv.agents
    ensures Balanced(sv, pc, env, Advance(sv, pc, env), a, id)
  {
    hide PlanFor, Assignment;
  }

  lemma BalancedReport(sv: Server, dispatched: map<JobId, Thread>, pc: Pc, env: Env, a: AgentId, id: JobId)
    requires PcInv(sv.rows, dispatched, Conn(a), pc) && IsReport(pc) && !pc.SGet? && a in sv.agents
    requires Touched(pc).Some? ==> Touched(pc).value == id
    requires id in sv.rows && sv.rows[id].owner == a && sv.rows[id].status.IsValid() && !sv.rows[id].status.Pending?
    ensures Balanced(sv, pc, env, Advance(sv, pc, env), a, id)
  {
    hide PlanFor, Assignment;
  }

  lemma BalancedOther(sv: Server, dispatched: map<JobId, Thread>, pc: Pc, env: Env, a: AgentId, id: JobId)
    requires PcInv(sv.rows, dispatched, Conn(a), pc) && !IsEarly(pc) && !IsLate(pc) && !IsReport(pc) && a in sv.agents
    requires Touched(pc).Some? ==> Touched(pc).value == id
    requires a != "" && (pc.SCount? ==> sv.agents[a].running > 0)
    ensures Balanced(sv, pc, env, Advance(sv, pc, env), a, id)
  {
    hide PlanFor, Assignment;
  }

  // A call of the agent's own handler.
  lemma OwnBalance(s: State, pc: Pc, env: Env, a: AgentId, id: JobId)
    requires CapacityInv(s, a) && a != "" && Conn(a) in s.threads && pc == s.threads[Conn(a)]
    requires a in s.sv.agents
    requires Touched(pc).Some? ==> Touched(pc).value == id
    ensures Balanced(s.sv, pc, env, Advance(s.sv, pc, env), a, id)
  {
    hide Advance, Balanced;
    assert PcInv(s.sv.rows, s.dispatched, Conn(a), pc);
    if IsEarly(pc) { BalancedEarly(s.sv, s.dispatched, pc, env, a, id); }
    else if IsLate(pc) { BalancedLate(s.sv, s.dispatched, pc, env, a, id); }
    else if pc.SGet? { BalancedCheck(s.sv, pc, env, a, id); }
    else if IsReport(pc) {
      assert SentRow(s.sv.rows, id, s.dispatched[id]);
      BalancedReport(s.sv, s.dispatched, pc, env, a, id);
    }
    else { BalancedOther(s.sv, s.dispatched, pc, env, a, id); }
  }

  lemma OwnCall(s: State, env: Env, a: AgentId)
    requires CapacityInv(s, a) && a != "" && Conn(a) in s.threads && a in s.sv.agents
    ensures var pc := s.threads[Conn(a)]; var o := Advance(s.sv, pc, env);
      && a in o.sv.agents && RecordStep(s.sv.agents[a], pc, o.sv.agents[a], o.pc)
      && (Tallied(o.sv, o.pc, a) <==> !CallUpsets(s.sv.agents, pc, env, a))
  {
    hide Advance, RowsInv, CallUpsets, Lag, Touched;
    var pc := s.threads[Conn(a)];
    var o := Advance(s.sv, pc, env);
    OneRowChanges(s, Conn(a), env);
    var id := if Touched(pc).Some? then Touched(pc).value else "";
    OwnBalance(s, pc, env, a, id);
    ActiveChange(s.sv.rows, o.sv.rows, a, id);
  }

  lemma UnknownCall(s: State, env: Env, a: AgentId)
    requires RowsInv(s) && Conn(a) in s.threads && Unknown(s.sv, s.threads[Conn(a)], a)
    ensures var o := Advance(s.sv, s.threads[Conn(a)], env);
      Unknown(o.sv, o.pc, a) && o.sent.None? && o.sv == s.sv
  {
    var pc := s.threads[Conn(a)];
    assert PcInv(s.sv.rows, s.dispatched, Conn(a), pc);
    if pc.SGet? && pc.m.id in s.dispatched && s.dispatched[pc.m.id] == Conn(a) {
      assert SentRow(s.sv.rows, pc.m.id, Conn(a));
      assert pc.m.id !in Active(s.sv.rows, a);
    }
  }

  // A call of anybody else concerns no active job of the agent, nor its record.
  lemma ForeignWeight(sv: Server, dispatched: map<JobId, Thread>, t: Thread, pc: Pc, env: Env, a: AgentId, id: JobId)
    requires PcInv(sv.rows, dispatched, t, pc) && t != Conn(a) && a != "" && Touched(pc) == Some(id) && !pc.SGet?
    requires IsReport(pc) ==> id in sv.rows && sv.rows[id].owner != a
    ensures Weight(Advance(sv, pc, env).sv.rows, id, a) == Weight(sv.rows, id, a)
  {
    hide PlanFor, Assignment;
  }

  lemma ForeignAgents(sv: Server, dispatched: map<JobId, Thread>, t: Thread, pc: Pc, env: Env, a: AgentId)
    requires PcInv(sv.rows, dispatched, t, pc) && t != Conn(a)
    ensures a in Advance(sv, pc, env).sv.agents <==> a in sv.agents
    ensures a in sv.agents ==> Advance(sv, pc, env).sv.agents[a] == sv.agents[a]
    ensures Advance(sv, pc, env).sent.Some? ==> pc.RSend?
  {
    hide PlanFor, Assignment;
  }

  // A call changes at most the row it touches, and none when it only checks a report.
  lemma OneRowChanges(s: State, t: Thread, env: Env)
    requires RowsInv(s) && t in s.threads
    ensures var pc, rows := s.threads[t], Advance(s.sv, s.threads[t], env).sv.rows;
      && PcInv(s.sv.rows, s.dispatched, t, pc) && (pc.SGet? ==> rows == s.sv.rows)
      && forall i | Touched(pc) != Some(i) :: SameRow(s.sv.rows, rows, i)
  {
    RunKeepsRows(s, t, env, Advance(s.sv, s.threads[t], env));
  }

  lemma ForeignCall(s: State, t: Thread, env: Env, a: AgentId)
    requires RowsInv(s) && t in s.threads && t != Conn(a) && a != ""
    ensures |Active(Advance(s.sv, s.threads[t], env).sv.rows, a)| == |Active(s.sv.rows, a)|
  {
    hide Advance, RowsInv, PcInv, IsReport, SameRow, Active, Weight;
    var pc := s.threads[t];
    OneRowChanges(s, t, env);
    var id := if Touched(pc).Some? then Touched(pc).value else "";
    if !pc.SGet? {
      ActiveChange(s.sv.rows, Advance(s.sv, pc, env).sv.rows, a, id);
      if Touched(pc).Some? {
        ReportedElsewhere(s, t, a);
        ForeignWeight(s.sv, s.dispatched, t, pc, env, a, id);
      } else {
        SameWeight(s.sv.rows, Advance(s.sv, pc, env).sv.rows, id, a);
      }
    }
  }

  lemma SameWeight(rows: Rows, rows': Rows, id: JobId, a: AgentId)
    requires SameRow(rows, rows', id)
    ensures Weight(rows', id, a) == Weight(rows, id, a)
  {}

  lemma ReportedElsewhere(s: State, t: Thread, a: AgentId)
    requires RowsInv(s) && t in s.threads && t != Conn(a)
    ensures var pc := s.threads[t];
      IsReport(pc) && !pc.SGet? ==>
        Touched(pc) == Some(pc.m.id) && pc.m.id in s.sv.rows && s.sv.rows[pc.m.id].owner != a
  {
    var pc := s.threads[t];
    assert PcInv(s.sv.rows, s.dispatched, t, pc);
    if IsReport(pc) && !pc.SGet? { assert SentRow(s.sv.rows, pc.m.id, s.dispatched[pc.m.id]); }
  }

  // In every state in which the account is right, one step of anybody makes it wrong
  // exactly when it is one of those three.
  lemma StepUpsetsExactly(s: State, act: Action, a: AgentId)
    requires CapacityInv(s, a) && a != "" && a in s.sv.agents && Enabled(s, act) && Honest(s, act)
    ensures var s' := Step(s, act);
      && a in s'.sv.agents
      && (s'.sv.agents[a].running + Lag(PcOf(s', Conn(a))) == |Active(s'.sv.rows, a)| <==> !Upsets(s, act, a))
      && (Tallied(s'.sv, PcOf(s', Conn(a)), a) <==> !Upsets(s, act, a))
  {
    hide Advance, Active, RowsInv, CallUpsets;
    if !act.Run? {
      MessageUpsetsExactly(s, act, a);
    } else if act.thread == Conn(a) {
      OwnCall(s, act.env, a);
    } else {
      ForeignCall(s, act.thread, act.env, a);
      ForeignRecord(s, act.thread, act.env, a);
    }
  }

  lemma MessageUpsetsExactly(s: State, act: Action, a: AgentId)
    requires RowsInv(s) && Tallied(s.sv, PcOf(s, Conn(a)), a)
    requires a != "" && Enabled(s, act) && Honest(s, act) && !act.Run?
    ensures var s' := Step(s, act); var pc' := PcOf(s', Conn(a));
      && a in s'.sv.agents
      && (s'.sv.agents[a].running + Lag(pc') == |Active(s'.sv.rows, a)| <==> !Upsets(s, act, a))
      && (Tallied(s'.sv, pc', a) <==> !Upsets(s, act, a))
  {
    hide Advance, Active, RowsInv, CallUpsets;
    MessageKeepsActive(s, act);
  }

  // A message or a request changes no row.
  lemma MessageKeepsActive(s: State, act: Action)
    requires RowsInv(s) && Enabled(s, act) && Honest(s, act) && !act.Run?
    ensures Step(s, act).sv.rows == s.sv.rows
  {
    MessageKeepsThreads(s, act);
  }

  lemma ForeignRecord(s: State, t: Thread, env: Env, a: AgentId)
    requires RowsInv(s) && t in s.threads && t != Conn(a)
    ensures var agents := Advance(s.sv, s.threads[t], env).sv.agents;
      (a in agents <==> a in s.sv.agents) && (a in agents ==> agents[a] == s.sv.agents[a])
  {
    assert PcInv(s.sv.rows, s.dispatched, t, s.threads[t]);
    ForeignAgents(s.sv, s.dispatched, t, s.threads[t], env, a);
  }

  // The limit holds on as well, exactly unless the agent registers anew with a lower one.
  lemma StepLowersExactly(s: State, act: Action, a: AgentId)
    requires CapacityInv(s, a) && a != "" && Enabled(s, act) && Honest(s, act) && !Upsets(s, act, a)
    requires Within(s.sv, PcOf(s, Conn(a)), a)
    ensures Within(Step(s, act).sv, PcOf(Step(s, act), Conn(a)), a) <==> !Lowers(s, act, a)
  {
    hide Advance, Active, RowsInv, CallUpsets, Honest;
    if !act.Run? {
      MessageLowersExactly(s, act, a);
    } else if act.thread != Conn(a) {
      ForeignRecord(s, act.thread, act.env, a);
    } else if a in s.sv.agents {
      OwnCall(s, act.env, a);
    } else {
      UnknownCall(s, act.env, a);
    }
  }

  lemma MessageLowersExactly(s: State, act: Action, a: AgentId)
    requires a != "" && Enabled(s, act) && !act.Run? && !Upsets(s, act, a) && Within(s.sv, PcOf(s, Conn(a)), a)
    ensures Within(Step(s, act).sv, PcOf(Step(s, act), Conn(a)), a) <==> !Lowers(s, act, a)
  {
    hide Advance;
  }

  lemma CapacityKept(s: State, act: Action, a: AgentId)
    requires CapacityInv(s, a) && a != "" && Enabled(s, act) && Honest(s, act) && !Upsets(s, act, a)
    ensures CapacityInv(Step(s, act), a)
  {
    RowsKept(s, act);
    if a in s.sv.agents {
      StepUpsetsExactly(s, act, a);
    } else if act.Run? {
      hide Advance, RowsInv, Active;
      if act.thread == Conn(a) {
        UnknownCall(s, act.env, a);
      } else {
        ForeignCall(s, act.thread, act.env, a);
        ForeignRecord(s, act.thread, act.env, a);
      }
    } else {
      hide Advance, RowsInv, Active;
      MessageKeepsActive(s, act);
    }
  }

  // Over any honest run without such a step, whatever other agents do and whatever else
  // fails: once registered, the agent's counter plus the lag of its handler is the number of
  // its active jobs, and whenever it is about to be decremented it is positive. Neither
  // exceeds the limit, unless the agent has lowered it below the jobs at hand.
  lemma CounterIsActiveJobs(states: seq<State>, actions: seq<Action>, a: AgentId, k: nat)
    requires IsHonestRun(states, actions) && a != "" && k < |states|
    requires forall i | 0 <= i < k :: !Upsets(states[i], actions[i], a)
    ensures a in states[k].sv.agents ==>
              var pc, info := PcOf(states[k], Conn(a)), states[k].sv.agents[a];
              && 0 <= info.running + Lag(pc) == |Active(states[k].sv.rows, a)|
              && (pc.SCount? ==> info.running > 0)
              && ((forall i | 0 <= i < k :: !Lowers(states[i], actions[i], a)) ==>
                    0 <= info.running <= Ceiling(info) && info.running + Lag(pc) <= Ceiling(info))
  {
    hide Step, Enabled, Honest, Upsets, Lowers, RowsInv, Active;
    RunsKeepAccount(states, actions, a, k);
    if forall i | 0 <= i < k :: !Lowers(states[i], actions[i], a) {
      RunsStayWithin(states, actions, a, k);
    }
  }

  lemma {:induction false} RunsKeepAccount(states: seq<State>, actions: seq<Action>, a: AgentId, k: nat)
    requires IsHonestRun(states, actions) && a != "" && k < |states|
    requires forall i | 0 <= i < k :: !Upsets(states[i], actions[i], a)
    ensures CapacityInv(states[k], a)
  {
    hide Step, Enabled, Honest, Upsets, CapacityInv;
    if k > 0 {
      RunsKeepAccount(states, actions, a, k - 1);
      CapacityKept(states[k - 1], actions[k - 1], a);
    } else {
      RunsKeepRows(states, actions, 0);
      NothingActive(states[0], a);
    }
  }

  lemma NothingActive(s: State, a: AgentId)
    requires RowsInv(s) && Start(s)
    ensures CapacityInv(s, a) && Within(s.sv, PcOf(s, Conn(a)), a)
  {
    assert Unknown(s.sv, PcOf(s, Conn(a)), a);
  }

  lemma {:induction false} RunsStayWithin(states: seq<State>, actions: seq<Action>, a: AgentId, k: nat)
    requires IsHonestRun(states, actions) && a != "" && k < |states|
    requires forall i | 0 <= i < k :: !Upsets(states[i], actions[i], a) && !Lowers(states[i], actions[i], a)
    ensures Within(states[k].sv, PcOf(states[k], Conn(a)), a)
  {
    hide Step, Enabled, Honest, Upsets, Lowers, CapacityInv, Within;
    if k > 0 {
      RunsStayWithin(states, actions, a, k - 1);
      RunsKeepAccount(states, actions, a, k - 1);
      StepLowersExactly(states[k - 1], actions[k - 1], a);
    } else {
      RunsKeepRows(states, actions, 0);
      NothingActive(states[0], a);
    }
  }
}
