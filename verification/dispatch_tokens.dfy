// A job id is a token: it is in the queue at most once, or held by at most one
// thread, or spent on the one JobAssigned that is ever sent for it.
module DispatchTokens {
  import opened Options
  import opened JobModel
  import opened Messages
  import opened Dispatch

  // The id a thread has taken out of the queue, or has not yet put in.
  function Held(pc: Pc): Option<JobId> {
    match pc
    case RGet(_, _, id) => Some(id)
    case RAttempt(w) => Some(w.id)
    case RUrls(w) => Some(w.id)
    case RAssign(w) => Some(w.id)
    case RRead(w) => Some(w.id)
    case RWrite(w) => Some(w.id)
    case ROutput(w) => Some(w.id)
    case RMarshal(w) => Some(w.id)
    case RCount(w) => Some(w.id)
    case RSend(w) => Some(w.id)
    case RRevert(w) => Some(w.id)
    case RClear(w, _) => Some(w.id)
    case RRequeue(id) => Some(id)
    case CCreate(job) => Some(job.id)
    case CEnqueue(id) => Some(id)
    case _ => None
  }

  function HeldBy(s: State, t: Thread): Option<JobId> {
    Held(PcOf(s, t))
  }

  function Holders(s: State, id: JobId): set<Thread> {
    set t | t in s.threads && HeldBy(s, t) == Some(id)
  }

  ghost predicate Distinct(items: seq<JobId>) {
    forall i, j | 0 <= i < j < |items| :: items[i] != items[j]
  }

  ghost predicate TokensApart(queue: seq<JobId>, threads: map<Thread, Pc>, spent: set<JobId>) {
    && Distinct(queue)
    && (forall id | id in queue :: id !in spent)
    && (forall t, u | t in threads && u in threads && t != u && Held(threads[t]).Some? ::
          Held(threads[t]) != Held(threads[u]))
    && (forall t | t in threads && Held(threads[t]).Some? ::
          Held(threads[t]).value !in queue && Held(threads[t]).value !in spent)
  }

  ghost predicate TokensKnown(s: State) {
    && (forall id | id in s.sv.queue :: id in s.ids)
    && (forall t | t in s.threads && HeldBy(s, t).Some? :: HeldBy(s, t).value in s.ids)
    && s.dispatched.Keys <= s.ids
    && s.sv.rows.Keys <= s.ids && "" !in s.ids
  }

  // Every message in the log is for a spent id, sent on that id's connection, and no id occurs twice.
  ghost predicate LogOnce(log: map<Thread, seq<JobAssigned>>, dispatched: map<JobId, Thread>) {
    && (forall t, i | t in log && 0 <= i < |log[t]| :: log[t][i].id in dispatched && dispatched[log[t][i].id] == t)
    && (forall t, i, j | t in log && 0 <= i < j < |log[t]| :: log[t][i].id != log[t][j].id)
  }

  ghost predicate TokenInv(s: State) {
    TokensApart(s.sv.queue, s.threads, s.dispatched.Keys) && TokensKnown(s) && LogOnce(s.log, s.dispatched)
  }

  // The ways in which one call moves a token.
  datatype Move = Keep | Drop | Take | Give | Spend

  ghost predicate Moves(move: Move, sv: Server, pc: Pc, o: Outcome) {
    match move
    case Keep => o.sv.queue == sv.queue && Held(o.pc) == Held(pc) && o.sent.None?
    case Drop => o.sv.queue == sv.queue && Held(o.pc).None? && o.sent.None?
    case Take =>
      && sv.queue != [] && o.sv.queue == sv.queue[1..]
      && Held(pc).None? && Held(o.pc) == Some(sv.queue[0]) && o.sent.None?
    case Give => Held(pc).Some? && o.sv.queue == sv.queue + [Held(pc).value] && Held(o.pc).None? && o.sent.None?
    case Spend => o.sv.queue == sv.queue && o.sent.Some? && Held(pc) == Some(o.sent.value.id) && Held(o.pc).None?
  }

  lemma AdvanceMoves(sv: Server, pc: Pc, env: Env) returns (move: Move)
    ensures Moves(move, sv, pc, Advance(sv, pc, env))
    ensures Advance(sv, pc, env).sv.rows.Keys <= sv.rows.Keys + (if Held(pc).Some? then {Held(pc).value} else {})
  {
    hide PlanFor, Counted;
    var o := Advance(sv, pc, env);
    move :=
      if o.sent.Some? then Spend
      else if pc.RDequeue? && o.pc.RGet? then Take
      else if (pc.RRequeue? || pc.CEnqueue?) && o.sv.queue != sv.queue then Give
      else if Held(o.pc) == Held(pc) then Keep
      else Drop;
  }

  lemma MovedApart(move: Move, sv: Server, pc: Pc, o: Outcome, t: Thread, threads: map<Thread, Pc>, spent: set<JobId>)
    requires t in threads && threads[t] == pc && Moves(move, sv, pc, o)
    requires TokensApart(sv.queue, threads, spent)
    ensures TokensApart(o.sv.queue, threads[t := o.pc], if o.sent.Some? then spent + {o.sent.value.id} else spent)
  {
    if move.Take? {
      assert sv.queue[0] in sv.queue;
      forall id | id in o.sv.queue ensures id in sv.queue && id != sv.queue[0] {
        var i :| 0 <= i < |o.sv.queue| && o.sv.queue[i] == id;
        assert sv.queue[i + 1] == id;
      }
    }
  }

  lemma MovedLog(log: map<Thread, seq<JobAssigned>>, dispatched: map<JobId, Thread>, t: Thread, m: JobAssigned)
    requires LogOnce(log, dispatched) && m.id !in dispatched
    ensures LogOnce(log[t := (if t in log then log[t] else []) + [m]], dispatched[m.id := t])
  {}

  lemma AfterKeepsTokens(s: State, t: Thread, o: Outcome, move: Move)
    requires TokenInv(s) && t in s.threads && Moves(move, s.sv, s.threads[t], o)
    requires o.sv.rows.Keys <= s.sv.rows.Keys + (if HeldBy(s, t).Some? then {HeldBy(s, t).value} else {})
    ensures TokenInv(After(s, t, o))
  {
    var s' := After(s, t, o);
    MovedApart(move, s.sv, s.threads[t], o, t, s.threads, s.dispatched.Keys);
    if o.sent.Some? {
      MovedLog(s.log, s.dispatched, t, o.sent.value);
      assert s'.dispatched.Keys == s.dispatched.Keys + {o.sent.value.id};
    }
    assert move.Give? ==> forall id | id in o.sv.queue :: id in s.sv.queue || id == HeldBy(s, t).value;
  }

  lemma StartKeepsTokens(s: State, t: Thread, pc: Pc)
    requires TokenInv(s)
    requires Held(pc).None? || (pc.CCreate? && pc.job.id !in s.ids && pc.job.id != "" && HeldBy(s, t).None?)
    ensures TokenInv(s.(threads := s.threads[t := pc],
                        ids := s.ids + (if Held(pc).Some? then {Held(pc).value} else {})))
  {
    var threads := s.threads[t := pc];
    forall u, v | u in threads && v in threads && u != v && Held(threads[u]).Some?
      ensures Held(threads[u]) != Held(threads[v])
    {
      assert u != t ==> HeldBy(s, u) == Held(threads[u]);
      assert v != t ==> HeldBy(s, v) == Held(threads[v]);
    }
  }

  lemma TokensKept(s: State, a: Action)
    requires TokenInv(s) && Enabled(s, a)
    ensures TokenInv(Step(s, a))
  {
    hide Advance, TokensApart, LogOnce;
    match a
    case Run(t, env) =>
      var move := AdvanceMoves(s.sv, PcOf(s, t), env);
      AfterKeepsTokens(s, t, Advance(s.sv, PcOf(s, t), env), move);
    case Create(n, job) =>
      StartKeepsTokens(s, Http(n), CCreate(job));
    case Request(c, envelope, _) =>
      StartKeepsTokens(s, Conn(c), RCheck(envelope));
      assert s.ids + {} == s.ids;
    case Report(c, envelope, m) =>
      StartKeepsTokens(s, Conn(c), SGet(envelope, m));
      assert s.ids + {} == s.ids;
    case _ =>
  }

  lemma {:induction false} RunsKeepTokens(states: seq<State>, actions: seq<Action>, i: nat)
    requires IsRun(states, actions) && i < |states|
    ensures TokenInv(states[i])
  {
    if i > 0 {
      RunsKeepTokens(states, actions, i - 1);
      TokensKept(states[i - 1], actions[i - 1]);
    }
  }

  lemma DistinctCount(items: seq<JobId>, id: JobId)
    requires Distinct(items)
    ensures multiset(items)[id] <= 1
  {
    if items != [] {
      assert items == [items[0]] + items[1..];
      DistinctCount(items[1..], id);
      assert forall i | 0 <= i < |items| - 1 :: items[1..][i] == items[i + 1] != items[0];
    }
  }

  lemma HoldersCount(s: State, id: JobId)
    requires TokensApart(s.sv.queue, s.threads, s.dispatched.Keys)
    ensures |Holders(s, id)| <= 1
  {
    if t :| t in Holders(s, id) {
      assert Holders(s, id) == {t};
    }
  }

  // In every state of every run, with any number of handlers interleaved and any
  // calls failing: copies in the queue plus holders number at most one, none
  // once the job has been sent; and no two sent messages are for the same job.
  lemma AtMostOneDispatch(states: seq<State>, actions: seq<Action>, k: nat, id: JobId)
    requires IsRun(states, actions) && k < |states|
    ensures multiset(states[k].sv.queue)[id] + |Holders(states[k], id)| <= 1
    ensures forall t, i | 0 <= i < |LogOf(states[k], t)| && LogOf(states[k], t)[i].id == id ::
              multiset(states[k].sv.queue)[id] + |Holders(states[k], id)| == 0
    ensures forall t, i, u, j | 0 <= i < |LogOf(states[k], t)| && 0 <= j < |LogOf(states[k], u)| && (t, i) != (u, j) ::
              LogOf(states[k], t)[i].id != LogOf(states[k], u)[j].id
  {
    var s := states[k];
    RunsKeepTokens(states, actions, k);
    DistinctCount(s.sv.queue, id);
    HoldersCount(s, id);
    if |Holders(s, id)| > 0 {
      var t :| t in Holders(s, id);
      assert s.threads[t] == PcOf(s, t);
      assert id !in s.sv.queue;
    }
  }
}
