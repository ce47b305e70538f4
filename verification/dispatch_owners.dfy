// Who owns a row. While owner-clearing compensations succeed, a row names an
// agent only if its job was sent to that agent, or the agent's own handler is at
// work on it; the handler's owner check then keeps every other report away.
module DispatchOwners {
  import opened Options
  import opened JobModel
  import opened Dispatch
  import opened DispatchTokens
  import opened DispatchRows

  // The handler has named its agent in the row and not sent the job yet.
  predicate Claims(pc: Pc, id: JobId) {
    match pc
    case RRead(w) => w.id == id
    case RWrite(w) => w.id == id
    case ROutput(w) => w.id == id
    case RMarshal(w) => w.id == id
    case RCount(w) => w.id == id
    case RSend(w) => w.id == id
    case RRevert(w) => w.id == id
    case RClear(w, _) => w.id == id
    case _ => false
  }

  lemma ClaimsAreHeld(pc: Pc, id: JobId)
    ensures Claims(pc, id) ==> Held(pc) == Some(id)
  {}

  // A clear of the owner that goes through, if the call is one.
  predicate Clears(pc: Pc, env: Env) {
    pc.RClear? ==> !env.fails
  }

  predicate Explained(s: State, id: JobId, owner: AgentId) {
    Sent(s.dispatched, Conn(owner), owner, id) || Claims(PcOf(s, Conn(owner)), id)
  }

  ghost predicate OwnersInv(s: State) {
    forall id | id in s.sv.rows && s.sv.rows[id].owner != "" :: Explained(s, id, s.sv.rows[id].owner)
  }

  // What becomes of a row's owner when a handler works on it.
  ghost predicate OwnerFate(sv: Server, t: Thread, pc: Pc, o: Outcome, id: JobId) {
    && (id in o.sv.rows ==>
          || o.sv.rows[id].owner == ""
          || (id in sv.rows && o.sv.rows[id].owner == sv.rows[id].owner)
          || (t == Conn(o.sv.rows[id].owner) && Claims(o.pc, id)))
    && (id in sv.rows && id in o.sv.rows && Claims(pc, id) && !Claims(o.pc, id) && o.sent.None? ==>
          o.sv.rows[id].owner == "")
    && (o.sent.Some? ==> o.sent.value.id == id)
  }

  lemma AdvanceOwner(sv: Server, dispatched: map<JobId, Thread>, t: Thread, pc: Pc, env: Env, id: JobId)
    requires PcInv(sv.rows, dispatched, t, pc) && Touched(pc) == Some(id) && Clears(pc, env)
    ensures OwnerFate(sv, t, pc, Advance(sv, pc, env), id)
  {
    hide PlanFor, Counted;
  }

  lemma ClaimsMove(sv: Server, pc: Pc, env: Env, id: JobId)
    ensures Claims(pc, id) && !Claims(Advance(sv, pc, env).pc, id) ==> pc.RSend? || pc.RClear?
    ensures Claims(pc, id) ==> Touched(pc) == Some(id)
  {
    hide PlanFor, Assignment;
  }

  // A call that leaves the claim standing, if there is one, leaves the explanation standing.
  lemma StaysExplained(s: State, t: Thread, o: Outcome, id: JobId, owner: AgentId)
    requires t in s.threads && Explained(s, id, owner) && (Claims(s.threads[t], id) ==> Claims(o.pc, id))
    requires o.sent.Some? ==> t.Conn? && o.sent.value.id !in s.dispatched
    ensures Explained(After(s, t, o), id, owner)
  {
    hide Claims;
  }

  lemma SendsHeld(s: State, t: Thread, env: Env)
    requires RowsInv(s) && t in s.threads
    ensures var o := Advance(s.sv, s.threads[t], env);
      o.sent.Some? ==> t.Conn? && o.sent.value.id !in s.dispatched && Touched(s.threads[t]) == Some(o.sent.value.id)
  {
    hide PlanFor;
    assert HeldBy(s, t) == Held(s.threads[t]);
    assert PcInv(s.sv.rows, s.dispatched, t, s.threads[t]);
  }

  lemma CallKeepsOwners(s: State, t: Thread, env: Env)
    requires RowsInv(s) && OwnersInv(s) && t in s.threads && Clears(s.threads[t], env)
    ensures OwnersInv(After(s, t, Advance(s.sv, s.threads[t], env)))
  {
    var pc := s.threads[t];
    var o := Advance(s.sv, pc, env);
    RunKeepsRows(s, t, env, o);
    SendsHeld(s, t, env);
    assert PcInv(s.sv.rows, s.dispatched, t, pc);
    hide Advance, RowsInv, OwnersInv, PcInv, Claims, Explained, OwnerFate, Touched, RowsStep;
    forall id ensures Touched(pc) == Some(id) && !pc.SGet? ==> OwnerFate(s.sv, t, pc, o, id) {
      if Touched(pc) == Some(id) && !pc.SGet? { AdvanceOwner(s.sv, s.dispatched, t, pc, env, id); }
    }
    forall id ensures Claims(pc, id) ==> Touched(pc) == Some(id) && !pc.SGet? {
      ClaimsMove(s.sv, pc, env, id);
      if pc.SGet? { CheckClaims(s.sv, pc, env, id); }
    }
    AfterKeepsOwners(s, t, o);
  }

  lemma AfterKeepsOwners(s: State, t: Thread, o: Outcome)
    requires RowsInv(s) && OwnersInv(s) && t in s.threads && RowsStep(s.sv, s.dispatched, t, s.threads[t], o)
    requires o.sent.Some? ==> t.Conn? && o.sent.value.id !in s.dispatched
    requires forall id :: Touched(s.threads[t]) == Some(id) && !s.threads[t].SGet? ==>
                            OwnerFate(s.sv, t, s.threads[t], o, id)
    requires forall id :: Claims(s.threads[t], id) ==> Touched(s.threads[t]) == Some(id) && !s.threads[t].SGet?
    ensures OwnersInv(After(s, t, o))
  {
    hide RowsInv, Claims, OwnerFate, Touched, GoodStep, Agrees;
    var pc, s' := s.threads[t], After(s, t, o);
    forall id | id in s'.sv.rows && s'.sv.rows[id].owner != "" ensures Explained(s', id, s'.sv.rows[id].owner) {
      assert id in s.sv.rows && s.sv.rows[id].owner != "" ==> Explained(s, id, s.sv.rows[id].owner);
      if Touched(pc) == Some(id) && !pc.SGet? {
        ClaimantIsToucher(s, t, id);
        Reexplained(s, t, o, id);
      } else {
        assert pc.SGet? || SameRow(s.sv.rows, o.sv.rows, id);
        StaysExplained(s, t, o, id, s.sv.rows[id].owner);
      }
    }
  }

  // A row that keeps its owner, or has just been named after the handler's agent.
  lemma Reexplained(s: State, t: Thread, o: Outcome, id: JobId)
    requires t in s.threads && OwnerFate(s.sv, t, s.threads[t], o, id)
    requires o.sent.Some? ==> t.Conn? && o.sent.value.id !in s.dispatched
    requires id in o.sv.rows && o.sv.rows[id].owner != ""
             && id in s.sv.rows && o.sv.rows[id].owner == s.sv.rows[id].owner ==>
               && Explained(s, id, s.sv.rows[id].owner)
               && (Claims(PcOf(s, Conn(s.sv.rows[id].owner)), id) ==> Conn(s.sv.rows[id].owner) == t)
    ensures var s' := After(s, t, o);
      id in s'.sv.rows && s'.sv.rows[id].owner != "" ==> Explained(s', id, s'.sv.rows[id].owner)
  {
    hide Claims;
  }

  lemma CheckClaims(sv: Server, pc: Pc, env: Env, id: JobId)
    requires pc.SGet?
    ensures !Claims(pc, id) && !Claims(Advance(sv, pc, env).pc, id)
    ensures Advance(sv, pc, env).sv == sv && Advance(sv, pc, env).sent.None?
  {
    hide PlanFor, Assignment;
  }

  // If a handler claims the row that thread t works on, it is t, unless t has yet to check its report.
  lemma ClaimantIsToucher(s: State, t: Thread, id: JobId)
    requires RowsInv(s) && t in s.threads && Touched(s.threads[t]) == Some(id) && !s.threads[t].SGet?
    ensures forall u | Claims(PcOf(s, u), id) :: u == t
  {
    forall u | Claims(PcOf(s, u), id) ensures u == t {
      ClaimsAreHeld(PcOf(s, u), id);
      if u != t { TouchedApart(s, t, u); }
    }
  }

  lemma ClaimedByOwner(sv: Server, dispatched: map<JobId, Thread>, t: Thread, pc: Pc)
    requires PcInv(sv.rows, dispatched, t, pc)
    ensures forall id | Claims(pc, id) :: id in sv.rows && t == Conn(sv.rows[id].owner)
  {}

  // An agent requests under its own id, and clears of an owner go through; what it
  // reports is up to it.
  predicate Proper(s: State, a: Action) {
    match a
    case Request(c, envelope, _) => envelope == c
    case Run(t, env) => Clears(PcOf(s, t), env)
    case _ => true
  }

  // An idle connection claims nothing: what its agent owns was sent to it.
  lemma ReportsAreHonest(s: State, a: Action)
    requires OwnersInv(s) && Enabled(s, a) && Proper(s, a)
    ensures Honest(s, a)
  {
    if a.Report? && a.m.id in s.sv.rows && s.sv.rows[a.m.id].owner == a.conn {
      if a.conn != "" { assert Explained(s, a.m.id, a.conn); }
    }
  }

  lemma OwnersKept(s: State, a: Action)
    requires RowsInv(s) && OwnersInv(s) && Enabled(s, a) && Proper(s, a)
    ensures OwnersInv(Step(s, a))
  {
    hide Advance, RowsInv;
    if a.Run? {
      CallKeepsOwners(s, a.thread, a.env);
    } else {
      var s' := Step(s, a);
      forall id | id in s'.sv.rows && s'.sv.rows[id].owner != "" ensures Explained(s', id, s'.sv.rows[id].owner) {
        assert Explained(s, id, s.sv.rows[id].owner);
      }
    }
  }

  lemma {:induction false} ProperPrefix(states: seq<State>, actions: seq<Action>, k: nat)
    requires IsRun(states, actions) && k < |states|
    requires forall i | 0 <= i < |actions| :: Proper(states[i], actions[i])
    ensures RowsInv(states[k]) && OwnersInv(states[k])
    ensures forall i | 0 <= i < k :: Honest(states[i], actions[i])
  {
    hide Step, Enabled, Proper, Honest, RowsInv, OwnersInv;
    if k == 0 {
      NothingOwned(states[0]);
    } else {
      ProperPrefix(states, actions, k - 1);
      ReportsAreHonest(states[k - 1], actions[k - 1]);
      RowsKept(states[k - 1], actions[k - 1]);
      OwnersKept(states[k - 1], actions[k - 1]);
    }
  }

  lemma NothingOwned(s: State)
    requires Start(s)
    ensures RowsInv(s) && OwnersInv(s)
  {}

  // Such runs are honest: every result about honest runs holds of them, whatever is reported.
  lemma ProperRunsAreHonest(states: seq<State>, actions: seq<Action>)
    requires IsRun(states, actions)
    requires forall i | 0 <= i < |actions| :: Proper(states[i], actions[i])
    ensures IsHonestRun(states, actions)
  {
    hide Step, Enabled, Proper, Honest, RowsInv, OwnersInv;
    ProperPrefix(states, actions, |actions|);
  }

  // Interleaved, and whatever agents report: terminal rows are frozen and a job changes its
  // status at most three times.
  lemma AnyReportsFreeze(states: seq<State>, actions: seq<Action>, i: nat, k: nat, id: JobId)
    requires IsRun(states, actions) && i <= k < |states| && id in states[i].sv.rows
    requires forall j | 0 <= j < |actions| :: Proper(states[j], actions[j])
    ensures forall n | i <= n <= k :: id in states[n].sv.rows
    ensures StatusChanges(states, i, k, id) <= 3
    ensures states[i].sv.rows[id].status.IsTerminal() ==> states[k].sv.rows[id] == states[i].sv.rows[id]
  {
    hide Step, Enabled, Proper, Honest;
    ProperRunsAreHonest(states, actions);
    TerminalRowsFrozen(states, actions, i, k, id);
  }
}
