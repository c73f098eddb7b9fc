/** Load-exclusive and store-exclusive: any number of agents update one register, each by loading it,
    computing a new value, and storing that only if nobody else has stored in between. */
module Exclusive {
  /** What an agent does to the register: an exclusive retry loop, a plain load, change and store, or a
      plain store. */
  datatype Op<!W> = Atomic(f: W -> W) | Plain(f: W -> W) | Write(value: W) {
    function Effect(x: W): W {
      match this
      case Atomic(f) => f(x)
      case Plain(f) => f(x)
      case Write(value) => value
    }
  }

  /** Where an agent is: between two operations, about to load, about to store what it computed from
      `seen`, or about to return. `mark` is how many operations had taken effect when it loaded. */
  datatype Phase<!W> = Idle | Loading | Storing(seen: W, mark: nat) | Returning(seen: W)

  /** An agent and the operations it has still to carry out. The first of `program` is the current one
      until it has taken effect. */
  datatype Agent<!W> = Agent(program: seq<Op<W>>, phase: Phase<W>, reserved: bool)

  /** An operation that took effect: whose it was, the value it was computed from, and how many operations
      had taken effect when that value was loaded. */
  datatype Entry<!W> = Entry(agent: nat, op: Op<W>, seen: W, mark: nat)

  /** `lost` counts the stores that failed for want of a reservation. */
  datatype State<!W> = State(reg: W, agents: seq<Agent<W>>, done: seq<Entry<W>>, lost: nat)

  /** `Store(a, true)` stores. `Store(a, false)` fails, which a store-exclusive may do even with the
      reservation in place. */
  datatype Event = Invoke(agent: nat) | Load(agent: nat) | Store(agent: nat, ok: bool) | Return(agent: nat)

  // ---------------------------------------------------------------- steps

  ghost predicate Enabled<W>(s: State<W>, e: Event) {
    && e.agent < |s.agents|
    && var agent := s.agents[e.agent];
       match e
       case Invoke(_) => agent.phase.Idle? && agent.program != []
       case Load(_) => agent.phase.Loading? && agent.program != []
       case Store(_, ok) =>
         && agent.phase.Storing? && agent.program != []
         && (agent.program[0].Atomic? ==> (ok ==> agent.reserved))
         && (!agent.program[0].Atomic? ==> ok)
       case Return(_) => agent.phase.Returning?
  }

  /** A plain store needs no load. */
  ghost function First<W>(op: Op<W>, mark: nat): Phase<W> {
    if op.Write? then Storing(op.value, mark) else Loading
  }

  ghost function Unreserved<W>(agent: Agent<W>): Agent<W> {
    agent.(reserved := false)
  }

  /** Agent `a` stores. Every reservation on the register is gone. */
  ghost function Stored<W>(s: State<W>, a: nat): State<W>
    requires a < |s.agents| && s.agents[a].phase.Storing? && s.agents[a].program != []
  {
    var agent := s.agents[a];
    var seen := agent.phase.seen;
    var after := Agent(agent.program[1..], Returning(seen), false);
    State(agent.program[0].Effect(seen),
          seq(|s.agents|, i requires 0 <= i < |s.agents| => if i == a then after else Unreserved(s.agents[i])),
          s.done + [Entry(a, agent.program[0], seen, agent.phase.mark)],
          s.lost)
  }

  ghost function Apply<W>(s: State<W>, e: Event): State<W>
    requires Enabled(s, e)
  {
    var agent := s.agents[e.agent];
    match e
    case Invoke(a) => s.(agents := s.agents[a := agent.(phase := First(agent.program[0], |s.done|))])
    case Load(a) => s.(agents := s.agents[a := agent.(phase := Storing(s.reg, |s.done|), reserved := agent.program[0].Atomic?)])
    case Store(a, ok) =>
      if ok then Stored(s, a)
      else s.(agents := s.agents[a := agent.(phase := Loading, reserved := false)],
              lost := if agent.reserved then s.lost else s.lost + 1)
    case Return(a) => s.(agents := s.agents[a := agent.(phase := Idle)])
  }

  ghost predicate Runs<W>(s: State<W>, es: seq<Event>)
    decreases |es|
  {
    es == [] || (Enabled(s, es[0]) && Runs(Apply(s, es[0]), es[1..]))
  }

  ghost function After<W>(s: State<W>, es: seq<Event>): State<W>
    requires Runs(s, es)
    decreases |es|
  {
    if es == [] then s else After(Apply(s, es[0]), es[1..])
  }

  /** Nothing under way. */
  ghost predicate Initial<W>(s: State<W>) {
    s.done == [] && s.lost == 0 && forall a | a in s.agents :: a.phase.Idle? && !a.reserved
  }

  /** Nothing left to do. */
  ghost predicate Finished<W>(s: State<W>) {
    forall a | a in s.agents :: a.program == []
  }

  // ---------------------------------------------------------------- one after another

  /** The register after the operations of a log, one after another. */
  ghost function Fold<W>(x: W, log: seq<Entry<W>>): W {
    if log == [] then x else log[|log| - 1].op.Effect(Fold(x, log[..|log| - 1]))
  }

  /** The operations of one agent, in order. */
  ghost function Own<W>(log: seq<Entry<W>>, a: nat): seq<Op<W>> {
    if log == [] then []
    else Own(log[..|log| - 1], a) + if log[|log| - 1].agent == a then [log[|log| - 1].op] else []
  }

  /** Every operation saw the value that the ones before it in the log left. */
  ghost predicate Sequential<W>(x: W, log: seq<Entry<W>>) {
    forall i :: 0 <= i < |log| ==> !log[i].op.Write? ==> log[i].seen == Fold(x, log[..i])
  }

  lemma Snoc<W>(x: W, log: seq<Entry<W>>, e: Entry<W>, a: nat)
    ensures Fold(x, log + [e]) == e.op.Effect(Fold(x, log))
    ensures Own(log + [e], a) == Own(log, a) + if e.agent == a then [e.op] else []
  {
    assert (log + [e])[..|log|] == log;
  }

  // ---------------------------------------------------------------- what really happened

  /** The register after a log: what the last operation stored. */
  ghost function Actual<W>(x: W, log: seq<Entry<W>>): W {
    if log == [] then x else log[|log| - 1].op.Effect(log[|log| - 1].seen)
  }

  /** `seen` is what the register held after the first `mark` operations. */
  ghost predicate Loaded<W>(x: W, log: seq<Entry<W>>, seen: W, mark: nat) {
    mark <= |log| && seen == Actual(x, log[..mark])
  }

  /** An operation is computed from what the register held when it was loaded, and nobody stores between
      the load and the store of an exclusive one. */
  ghost predicate LoadOk<W>(x: W, log: seq<Entry<W>>, op: Op<W>, seen: W, mark: nat) {
    && (!op.Write? ==> Loaded(x, log, seen, mark))
    && (op.Atomic? ==> mark == |log|)
  }

  ghost predicate History<W>(x: W, log: seq<Entry<W>>) {
    forall i :: 0 <= i < |log| ==> LoadOk(x, log[..i], log[i].op, log[i].seen, log[i].mark)
  }

  /** A reservation vouches for there having been no store since the load. */
  ghost predicate AgentOk<W>(x: W, s: State<W>, a: nat)
    requires a < |s.agents|
  {
    var agent := s.agents[a];
    && (agent.phase.Storing? ==>
        agent.program != [] && (!agent.program[0].Write? ==> Loaded(x, s.done, agent.phase.seen, agent.phase.mark)))
    && (agent.phase.Storing? ==> agent.phase.mark <= |s.done|)
    && (agent.reserved ==> agent.phase.Storing? && agent.phase.mark == |s.done|)
    && (agent.phase.Storing? && agent.program[0].Atomic? && !agent.reserved ==> agent.phase.mark < |s.done|)
    && (agent.phase.Returning? ==> Own(s.done, a) != [])
  }

  ghost predicate Inv<W>(x: W, s: State<W>) {
    && s.reg == Actual(x, s.done)
    && History(x, s.done)
    && forall a :: 0 <= a < |s.agents| ==> AgentOk(x, s, a)
  }

  lemma HistorySnoc<W>(x: W, log: seq<Entry<W>>, e: Entry<W>)
    requires History(x, log) && LoadOk(x, log, e.op, e.seen, e.mark)
    ensures History(x, log + [e])
  {
    var log' := log + [e];
    forall i | 0 <= i < |log'| ensures LoadOk(x, log'[..i], log'[i].op, log'[i].seen, log'[i].mark) {
      assert log'[..i] == log[..i];
    }
  }

  lemma LoadedStays<W>(x: W, log: seq<Entry<W>>, e: Entry<W>, seen: W, mark: nat)
    requires Loaded(x, log, seen, mark)
    ensures Loaded(x, log + [e], seen, mark)
  {
    assert (log + [e])[..mark] == log[..mark];
  }

  lemma StoreKeepsAgent<W>(x: W, s: State<W>, a: nat, b: nat)
    requires Enabled(s, Store(a, true)) && b < |s.agents| && AgentOk(x, s, b)
    ensures AgentOk(x, Stored(s, a), b)
  {
    var phase := s.agents[b].phase;
    var entry := Entry(a, s.agents[a].program[0], s.agents[a].phase.seen, s.agents[a].phase.mark);
    Snoc(x, s.done, entry, b);
    if phase.Storing? && Loaded(x, s.done, phase.seen, phase.mark) {
      LoadedStays(x, s.done, entry, phase.seen, phase.mark);
    }
    hide Loaded, Own, Fold;
  }

  lemma StoreKeeps<W>(x: W, s: State<W>, a: nat)
    requires Inv(x, s) && Enabled(s, Store(a, true))
    ensures Inv(x, Stored(s, a))
  {
    var entry := Entry(a, s.agents[a].program[0], s.agents[a].phase.seen, s.agents[a].phase.mark);
    assert AgentOk(x, s, a);
    HistorySnoc(x, s.done, entry);
    hide History;
    forall b | 0 <= b < |s.agents| ensures AgentOk(x, Stored(s, a), b) {
      StoreKeepsAgent(x, s, a, b);
    }
    hide AgentOk;
  }

  lemma StepKeeps<W>(x: W, s: State<W>, e: Event)
    requires Inv(x, s) && Enabled(s, e)
    ensures Inv(x, Apply(s, e))
  {
    if e.Store? && e.ok {
      StoreKeeps(x, s, e.agent);
    } else {
      assert s.done[..|s.done|] == s.done;
      forall b | 0 <= b < |s.agents| ensures AgentOk(x, Apply(s, e), b) {
        assert AgentOk(x, s, b);
      }
    }
  }

  lemma {:induction false} RunKeeps<W>(x: W, s: State<W>, es: seq<Event>)
    requires Inv(x, s) && Runs(s, es)
    ensures Inv(x, After(s, es))
    decreases |es|
  {
    if es != [] {
      StepKeeps(x, s, es[0]);
      RunKeeps(x, Apply(s, es[0]), es[1..]);
    }
  }

  /** The register holds what the last operation to take effect made of the value that it had loaded, or, if that
      was a plain store, the value that was stored; nothing else changes it. */
  lemma RegisterIsLastStore<W>(s: State<W>, es: seq<Event>)
    requires Initial(s) && Runs(s, es)
    ensures var log := After(s, es).done;
            After(s, es).reg ==
              if log == [] then s.reg
              else match log[|log| - 1].op
                   case Atomic(f) => f(log[|log| - 1].seen)
                   case Plain(f) => f(log[|log| - 1].seen)
                   case Write(value) => value
  {
    InitialInv(s);
    RunKeeps(s.reg, s, es);
  }

  // ---------------------------------------------------------------- when a run is sequential

  /** When it stored, every plain operation of the log found in the register what it had loaded. */
  ghost predicate Fresh<W>(x: W, log: seq<Entry<W>>) {
    forall i :: 0 <= i < |log| ==> log[i].op.Plain? ==> log[i].seen == Actual(x, log[..i])
  }

  lemma SequentialIsActual<W>(x: W, log: seq<Entry<W>>)
    requires Sequential(x, log)
    ensures Fold(x, log) == Actual(x, log)
  {
  }

  lemma SequentialPrefix<W>(x: W, log: seq<Entry<W>>, n: nat)
    requires n <= |log| && Sequential(x, log)
    ensures Sequential(x, log[..n])
  {
    forall i | 0 <= i < n && !log[i].op.Write? ensures log[..n][i].seen == Fold(x, log[..n][..i]) {
      assert log[..n][..i] == log[..i];
    }
  }

  lemma {:induction false} FreshIsSequential<W>(x: W, log: seq<Entry<W>>)
    requires History(x, log) && Fresh(x, log)
    ensures Sequential(x, log)
    decreases |log|
  {
    if log != [] {
      var n := |log| - 1;
      var rest := log[..n];
      forall i | 0 <= i < n ensures rest[..i] == log[..i] {}
      assert forall i | 0 <= i < n :: LoadOk(x, rest[..i], rest[i].op, rest[i].seen, rest[i].mark);
      FreshIsSequential(x, rest);
      SequentialIsActual(x, rest);
      assert LoadOk(x, rest, log[n].op, log[n].seen, log[n].mark);
      assert rest[..n] == rest;
      forall i | 0 <= i < |log| && !log[i].op.Write? ensures log[i].seen == Fold(x, log[..i]) {
        assert i < n ==> rest[i].seen == Fold(x, rest[..i]);
      }
    }
  }

  /** A history is sequential exactly when every plain operation stored over the value it had loaded. */
  lemma SequentialIffFresh<W>(x: W, log: seq<Entry<W>>)
    requires History(x, log)
    ensures Sequential(x, log) <==> Fresh(x, log)
  {
    if Sequential(x, log) {
      forall i | 0 <= i < |log| && log[i].op.Plain? ensures log[i].seen == Actual(x, log[..i]) {
        SequentialPrefix(x, log, i);
        SequentialIsActual(x, log[..i]);
      }
    }
    if Fresh(x, log) {
      FreshIsSequential(x, log);
    }
  }

  /** At every plain store of a run the register holds what the agent had loaded. */
  ghost predicate StillCurrent<W>(s: State<W>, es: seq<Event>)
    requires Runs(s, es)
    decreases |es|
  {
    es == [] || (CurrentAt(s, es[0]) && StillCurrent(Apply(s, es[0]), es[1..]))
  }

  ghost predicate CurrentAt<W>(s: State<W>, e: Event)
    requires Enabled(s, e)
  {
    PlainStore(s, e) ==> s.agents[e.agent].phase.seen == s.reg
  }

  ghost predicate PlainStore<W>(s: State<W>, e: Event)
    requires Enabled(s, e)
  {
    e.Store? && e.ok && s.agents[e.agent].program[0].Plain?
  }

  lemma StepFresh<W>(x: W, s: State<W>, e: Event)
    requires Inv(x, s) && Enabled(s, e)
    ensures Fresh(x, Apply(s, e).done) <==> Fresh(x, s.done) && CurrentAt(s, e)
  {
    var log := s.done;
    if e.Store? && e.ok {
      var log' := Apply(s, e).done;
      assert log'[..|log|] == log;
      assert forall i | 0 <= i < |log| :: log'[..i] == log[..i] && log'[i] == log[i];
      if Fresh(x, log') {
        forall i | 0 <= i < |log| && log[i].op.Plain? ensures log[i].seen == Actual(x, log[..i]) {
          assert log'[i].seen == Actual(x, log'[..i]);
        }
        assert PlainStore(s, e) ==> log'[|log|].seen == Actual(x, log'[..|log|]);
      }
    }
  }

  lemma {:induction false} RunFresh<W>(x: W, s: State<W>, es: seq<Event>)
    requires Inv(x, s) && Runs(s, es)
    ensures Fresh(x, After(s, es).done) <==> Fresh(x, s.done) && StillCurrent(s, es)
    decreases |es|
  {
    if es != [] {
      StepKeeps(x, s, es[0]);
      StepFresh(x, s, es[0]);
      RunFresh(x, Apply(s, es[0]), es[1..]);
      hide Fresh, Inv, CurrentAt;
    }
  }

  lemma InitialInv<W>(s: State<W>)
    requires Initial(s)
    ensures Inv(s.reg, s)
  {
    forall a | 0 <= a < |s.agents| ensures AgentOk(s.reg, s, a) {
      assert s.agents[a] in s.agents;
    }
  }

  /** For any programs of exclusive, plain and write operations and any interleaving: the completed operations
      are as good as carried out one after another if and only if every plain store found in the register
      what its agent had loaded. */
  lemma SequentialIffCurrent<W>(s: State<W>, es: seq<Event>)
    requires Initial(s) && Runs(s, es)
    ensures Sequential(s.reg, After(s, es).done) <==> StillCurrent(s, es)
  {
    InitialInv(s);
    RunKeeps(s.reg, s, es);
    RunFresh(s.reg, s, es);
    SequentialIffFresh(s.reg, After(s, es).done);
  }

  /** No store of anybody falls between the load and the store of a plain operation. */
  ghost predicate Undisturbed<W>(s: State<W>, es: seq<Event>)
    requires Runs(s, es)
    decreases |es|
  {
    es == [] || (
      && (PlainStore(s, es[0]) ==> s.agents[es[0].agent].phase.mark == |s.done|)
      && Undisturbed(Apply(s, es[0]), es[1..]))
  }

  lemma MarkIsCurrent<W>(x: W, s: State<W>, e: Event)
    requires Inv(x, s) && Enabled(s, e) && (PlainStore(s, e) ==> s.agents[e.agent].phase.mark == |s.done|)
    ensures CurrentAt(s, e)
  {
    assert AgentOk(x, s, e.agent);
    assert s.done[..|s.done|] == s.done;
  }

  lemma {:induction false} UndisturbedIsCurrent<W>(x: W, s: State<W>, es: seq<Event>)
    requires Inv(x, s) && Runs(s, es) && Undisturbed(s, es)
    ensures StillCurrent(s, es)
    decreases |es|
  {
    if es != [] {
      StepKeeps(x, s, es[0]);
      MarkIsCurrent(x, s, es[0]);
      hide Inv, CurrentAt, PlainStore, Apply;
      UndisturbedIsCurrent(x, Apply(s, es[0]), es[1..]);
    }
  }

  /** No agent has a plain load, change and store to do. */
  ghost predicate NoPlain<W>(s: State<W>) {
    forall a, i :: 0 <= a < |s.agents| && 0 <= i < |s.agents[a].program| ==> !s.agents[a].program[i].Plain?
  }

  lemma {:induction false} NoPlainIsCurrent<W>(s: State<W>, es: seq<Event>)
    requires NoPlain(s) && Runs(s, es)
    ensures StillCurrent(s, es)
    decreases |es|
  {
    if es != [] {
      assert NoPlain(Apply(s, es[0]));
      NoPlainIsCurrent(Apply(s, es[0]), es[1..]);
    }
  }

  // ---------------------------------------------------------------- what has been done and what is left

  /** A step takes an operation off its agent's program exactly when it logs it. */
  lemma StepCounts<W>(s: State<W>, e: Event, a: nat)
    requires Enabled(s, e) && a < |s.agents|
    ensures |Apply(s, e).agents| == |s.agents| && s.done <= Apply(s, e).done
    ensures Own(Apply(s, e).done, a) + Apply(s, e).agents[a].program == Own(s.done, a) + s.agents[a].program
  {
    if e.Store? && e.ok {
      var agent := s.agents[e.agent];
      Snoc(s.reg, s.done, Entry(e.agent, agent.program[0], agent.phase.seen, agent.phase.mark), a);
      assert agent.program == [agent.program[0]] + agent.program[1..];
    }
  }

  lemma {:induction false} RunCounts<W>(s: State<W>, es: seq<Event>, a: nat)
    requires Runs(s, es) && a < |s.agents|
    ensures |After(s, es).agents| == |s.agents| && s.done <= After(s, es).done
    ensures Own(After(s, es).done, a) + After(s, es).agents[a].program == Own(s.done, a) + s.agents[a].program
    decreases |es|
  {
    if es != [] {
      StepCounts(s, es[0], a);
      RunCounts(Apply(s, es[0]), es[1..], a);
    }
  }

  /** The operations are linearizable. After any run of any number of agents, with any spurious failures, in
      which every plain store found what its agent had loaded, the register is what the completed operations
      leave when they are carried out one after another in the order of their stores; each of them saw
      exactly what the ones before it left; and each agent's completed operations, followed by those it has
      still to do, are its program: none is lost and none counts twice. Runs without plain operations are
      always such runs, so the retry loops need no condition. */
  lemma Linearizable<W>(s: State<W>, es: seq<Event>)
    requires Initial(s) && Runs(s, es) && StillCurrent(s, es)
    ensures After(s, es).reg == Fold(s.reg, After(s, es).done)
    ensures Sequential(s.reg, After(s, es).done)
    ensures |After(s, es).agents| == |s.agents|
    ensures forall a :: 0 <= a < |s.agents| ==>
      Own(After(s, es).done, a) + After(s, es).agents[a].program == s.agents[a].program
  {
    SequentialIffCurrent(s, es);
    SequentialIsActual(s.reg, After(s, es).done);
    InitialInv(s);
    RunKeeps(s.reg, s, es);
    hide StillCurrent, Sequential, Fold, Actual;
    AgentsStay(s, es);
    forall a | 0 <= a < |s.agents| ensures
      Own(After(s, es).done, a) + After(s, es).agents[a].program == s.agents[a].program
    {
      RunCounts(s, es, a);
    }
  }

  lemma {:induction false} AgentsStay<W>(s: State<W>, es: seq<Event>)
    requires Runs(s, es)
    ensures |After(s, es).agents| == |s.agents|
    decreases |es|
  {
    if es != [] {
      AgentsStay(Apply(s, es[0]), es[1..]);
    }
  }

  /** Real time is respected: what took effect before a point of a run comes before everything that was
      still to be done at that point. */
  lemma RealTime<W>(s: State<W>, es: seq<Event>, a: nat)
    requires Runs(s, es) && a < |s.agents|
    ensures |After(s, es).agents| == |s.agents| && s.done <= After(s, es).done
    ensures Own(After(s, es).done[|s.done|..], a) + After(s, es).agents[a].program == s.agents[a].program
  {
    RunCounts(s, es, a);
    var late := After(s, es).done[|s.done|..];
    assert After(s, es).done == s.done + late;
    OwnSplit(s.done, late, a);
    Cancel(Own(s.done, a), Own(late, a), After(s, es).agents[a].program, s.agents[a].program);
  }

  lemma Cancel<T>(l: seq<T>, p: seq<T>, q: seq<T>, r: seq<T>)
    requires (l + p) + q == l + r
    ensures p + q == r
  {
    assert (l + p) + q == l + (p + q);
    assert (l + (p + q))[|l|..] == p + q && (l + r)[|l|..] == r;
  }

  lemma {:induction false} OwnSplit<W>(l: seq<Entry<W>>, m: seq<Entry<W>>, a: nat)
    ensures Own(l + m, a) == Own(l, a) + Own(m, a)
    decreases |m|
  {
    if m == [] {
      assert l + m == l;
    } else {
      var n := |m| - 1;
      OwnSplit(l, m[..n], a);
      assert (l + m)[..|l + m| - 1] == l + m[..n];
    }
  }

  /** What the current operation saw is what its agent returns: the value the register had just before
      the operation took effect. */
  ghost predicate ReturnOk<W>(s: State<W>, a: nat)
    requires a < |s.agents|
  {
    s.agents[a].phase.Returning? ==>
      exists i :: && 0 <= i < |s.done| && s.done[i].agent == a && s.done[i].seen == s.agents[a].phase.seen
                  && Own(s.done[i + 1..], a) == []
  }

  /** A store of another agent does not change what agent `a` returns. */
  lemma OtherStoreReturns<W>(s: State<W>, u: nat, a: nat)
    requires Enabled(s, Store(u, true)) && a < |s.agents| && a != u && ReturnOk(s, a) && s.agents[a].phase.Returning?
    ensures ReturnOk(Stored(s, u), a)
  {
    var s' := Stored(s, u);
    var i :| 0 <= i < |s.done| && s.done[i].agent == a && s.done[i].seen == s.agents[a].phase.seen
             && Own(s.done[i + 1..], a) == [];
    var entry := Entry(u, s.agents[u].program[0], s.agents[u].phase.seen, s.agents[u].phase.mark);
    assert s'.done == s.done + [entry] && s'.done[i] == s.done[i];
    hide Own;
    assert s'.done[i + 1..] == s.done[i + 1..] + [entry];
    Snoc(s.reg, s.done[i + 1..], entry, a);
  }

  lemma OwnStoreReturns<W>(s: State<W>, a: nat)
    requires Enabled(s, Store(a, true)) && a < |s.agents|
    ensures ReturnOk(Stored(s, a), a)
  {
    var s' := Stored(s, a);
    assert s'.done[|s.done| + 1..] == [];
    assert s'.done[|s.done|].agent == a;
  }

  lemma StepReturns<W>(s: State<W>, e: Event, a: nat)
    requires Enabled(s, e) && a < |s.agents| && ReturnOk(s, a)
    ensures |Apply(s, e).agents| == |s.agents| && ReturnOk(Apply(s, e), a)
  {
    if e.Store? && e.ok {
      if e.agent == a {
        OwnStoreReturns(s, a);
      } else if s.agents[a].phase.Returning? {
        OtherStoreReturns(s, e.agent, a);
      }
      hide Own;
    }
  }

  // ---------------------------------------------------------------- progress

  /** The agents that have loaded and whose store is bound to fail. */
  ghost function Doomed<W>(agents: seq<Agent<W>>): nat {
    if agents == [] then 0
    else Doomed(agents[..|agents| - 1]) + if IsDoomed(agents[|agents| - 1]) then 1 else 0
  }

  ghost predicate IsDoomed<W>(agent: Agent<W>) {
    agent.phase.Storing? && agent.program != [] && agent.program[0].Atomic? && !agent.reserved
  }

  lemma {:induction false} DoomedUpdate<W>(agents: seq<Agent<W>>, a: nat, agent: Agent<W>)
    requires a < |agents|
    ensures Doomed(agents[a := agent]) + (if IsDoomed(agents[a]) then 1 else 0)
         == Doomed(agents) + (if IsDoomed(agent) then 1 else 0)
    decreases |agents|
  {
    var n := |agents| - 1;
    if a == n {
      assert agents[a := agent][..n] == agents[..n];
    } else {
      assert agents[a := agent][..n] == agents[..n][a := agent];
      DoomedUpdate(agents[..n], a, agent);
    }
  }

  lemma {:induction false} DoomedBound<W>(agents: seq<Agent<W>>)
    ensures Doomed(agents) <= |agents|
    ensures (exists a :: 0 <= a < |agents| && !IsDoomed(agents[a])) ==> Doomed(agents) < |agents|
    decreases |agents|
  {
    if agents != [] {
      DoomedBound(agents[..|agents| - 1]);
      forall a | 0 <= a < |agents| && !IsDoomed(agents[a]) ensures Doomed(agents) < |agents| {
        assert a < |agents| - 1 ==> agents[..|agents| - 1][a] == agents[a];
      }
    }
  }

  /** Each operation that takes effect makes at most the stores of the other agents fail, once each. */
  ghost predicate Paid<W>(s: State<W>) {
    s.agents != [] ==> s.lost + Doomed(s.agents) <= |s.done| * (|s.agents| - 1)
  }

  lemma StorePays<W>(s: State<W>, a: nat)
    requires Enabled(s, Store(a, true)) && Paid(s)
    ensures Paid(Stored(s, a))
  {
    var s', others := Stored(s, a), |s.agents| - 1;
    assert !IsDoomed(s'.agents[a]);
    DoomedBound(s'.agents);
    assert |s'.done| * others == |s.done| * others + others;
  }

  lemma StepPays<W>(s: State<W>, e: Event)
    requires Enabled(s, e) && Paid(s)
    ensures Paid(Apply(s, e))
  {
    if e.Store? && e.ok {
      StorePays(s, e.agent);
    } else {
      var s' := Apply(s, e);
      assert s'.agents == s.agents[e.agent := s'.agents[e.agent]] && s'.done == s.done;
      DoomedUpdate(s.agents, e.agent, s'.agents[e.agent]);
      hide Doomed;
    }
  }

  lemma {:induction false} RunPays<W>(s: State<W>, es: seq<Event>)
    requires Runs(s, es) && Paid(s)
    ensures Paid(After(s, es))
    decreases |es|
  {
    if es != [] {
      StepPays(s, es[0]);
      RunPays(Apply(s, es[0]), es[1..]);
    }
  }

  lemma {:induction false} NobodyDoomed<W>(agents: seq<Agent<W>>)
    requires forall a | a in agents :: a.phase.Idle?
    ensures Doomed(agents) == 0
    decreases |agents|
  {
    if agents != [] {
      NobodyDoomed(agents[..|agents| - 1]);
    }
  }

  /** The loops are lock-free: over any run, the stores that fail because another agent stored first are
      at most the operations that completed, times the number of other agents. */
  lemma LockFree<W>(s: State<W>, es: seq<Event>)
    requires Initial(s) && Runs(s, es) && s.agents != []
    ensures After(s, es).lost <= |After(s, es).done| * (|s.agents| - 1)
  {
    NobodyDoomed(s.agents);
    RunPays(s, es);
    AgentsStay(s, es);
  }

  /** An agent whose operation took effect returns the value the register had at that moment: what the
      operations before its own left. */
  lemma {:induction false} ReturnsWhatItSaw<W>(s: State<W>, es: seq<Event>, a: nat)
    requires Runs(s, es) && a < |s.agents| && ReturnOk(s, a)
    ensures |After(s, es).agents| == |s.agents| && ReturnOk(After(s, es), a)
    decreases |es|
  {
    if es != [] {
      StepReturns(s, es[0], a);
      ReturnsWhatItSaw(Apply(s, es[0]), es[1..], a);
    }
  }

  /** An agent that has read, changed and stored the register in one go returns the value that the
      operations before its own had left: a fetch-and-subtract in a retry loop is one atomic step. */
  lemma FetchIsAtomic<W>(s: State<W>, es: seq<Event>, a: nat)
    requires Initial(s) && Runs(s, es) && StillCurrent(s, es) && a < |s.agents|
    ensures |After(s, es).agents| == |s.agents|
    ensures var s' := After(s, es);
            s'.agents[a].phase.Returning? ==>
              exists i :: && 0 <= i < |s'.done| && s'.done[i].agent == a && Own(s'.done[i + 1..], a) == []
                          && (!s'.done[i].op.Write? ==> s'.agents[a].phase.seen == Fold(s.reg, s'.done[..i]))
  {
    assert s.agents[a] in s.agents;
    Linearizable(s, es);
    ReturnsWhatItSaw(s, es, a);
  }

  // ---------------------------------------------------------------- operations that do not meet

  ghost predicate Commute<W(!new)>(f: Op<W>, g: Op<W>) {
    forall x :: f.Effect(g.Effect(x)) == g.Effect(f.Effect(x))
  }

  /** Operations of different agents may change places. */
  ghost predicate Independent<W(!new)>(log: seq<Entry<W>>) {
    forall e, f :: e in log && f in log && e.agent != f.agent ==> Commute(e.op, f.op)
  }

  lemma Swap<W(!new)>(f: Op<W>, g: Op<W>, x: W)
    requires Commute(f, g)
    ensures f.Effect(g.Effect(x)) == g.Effect(f.Effect(x))
  {
  }

  /** An operation that commutes with all that follow it may as well come last. */
  lemma {:induction false} MoveLast<W(!new)>(x: W, p: seq<Entry<W>>, e: Entry<W>, q: seq<Entry<W>>)
    requires forall i :: 0 <= i < |q| ==> Commute(e.op, q[i].op)
    ensures Fold(x, p + [e] + q) == e.op.Effect(Fold(x, p + q))
    decreases |q|
  {
    hide Commute;
    if q == [] {
      assert p + [e] + q == p + [e] && p + q == p;
      Snoc(x, p, e, 0);
    } else {
      var r, l := q[..|q| - 1], q[|q| - 1];
      MoveLast(x, p, e, r);
      assert p + [e] + q == (p + [e] + r) + [l] && p + q == (p + r) + [l];
      Snoc(x, p + [e] + r, l, 0);
      Snoc(x, p + r, l, 0);
      Swap(e.op, l.op, Fold(x, p + r));
    }
  }

  /** The last operation of agent `a` in a log, with what comes before and after it. */
  lemma {:induction false} LastOwn<W>(log: seq<Entry<W>>, a: nat) returns (p: seq<Entry<W>>, e: Entry<W>, q: seq<Entry<W>>)
    requires Own(log, a) != []
    ensures log == p + [e] + q && e.agent == a && Own(q, a) == []
    ensures Own(log, a) == Own(p, a) + [e.op] && Own(p + q, a) == Own(p, a)
    ensures forall b :: b != a ==> Own(p + q, b) == Own(log, b)
    decreases |log|
  {
    var n := |log| - 1;
    assert log == log[..n] + [log[n]];
    if log[n].agent == a {
      p, e, q := log[..n], log[n], [];
      assert p + q == p;
    } else {
      var r;
      p, e, r := LastOwn(log[..n], a);
      q := r + [log[n]];
      assert (p + r) + [log[n]] == p + q;
      Snoc(e.seen, r, log[n], a);
      forall b ensures Own(p + q, b) == Own(p + r, b) + if log[n].agent == b then [log[n].op] else [] {
        Snoc(e.seen, p + r, log[n], b);
      }
    }
  }

  lemma {:induction false} OwnHas<W>(log: seq<Entry<W>>, i: nat)
    requires i < |log|
    ensures log[i].op in Own(log, log[i].agent)
    decreases |log|
  {
    if i < |log| - 1 {
      OwnHas(log[..|log| - 1], i);
    }
  }

  lemma CommutesWithRest<W(!new)>(p: seq<Entry<W>>, e: Entry<W>, q: seq<Entry<W>>)
    requires Independent(p + [e] + q) && Own(q, e.agent) == []
    ensures forall i :: 0 <= i < |q| ==> Commute(e.op, q[i].op)
    ensures Independent(p + q)
  {
    var m := p + [e] + q;
    assert e in m;
    forall i | 0 <= i < |q| ensures Commute(e.op, q[i].op) {
      OwnHas(q, i);
      assert q[i] in m;
    }
    forall f | f in p + q ensures f in m {}
  }

  lemma OwnedByNobody<W>(log: seq<Entry<W>>)
    requires forall a: nat :: Own(log, a) == []
    ensures log == []
  {
    if log != [] {
      OwnHas(log, 0);
    }
  }

  /** If operations of different agents commute, then what a log leaves depends only on what each agent
      did, not on how they interleaved. */
  lemma {:induction false} OrderIsIrrelevant<W(!new)>(x: W, l: seq<Entry<W>>, m: seq<Entry<W>>)
    requires Independent(m)
    requires forall a: nat :: Own(l, a) == Own(m, a)
    ensures Fold(x, l) == Fold(x, m)
    decreases |l|
  {
    if l == [] {
      assert forall a: nat :: Own(l, a) == [];
      OwnedByNobody(m);
    } else {
      var n := |l| - 1;
      var a := l[n].agent;
      assert Own(l, a) == Own(l[..n], a) + [l[n].op];
      assert Own(l, a) == Own(m, a);
      var p, e, q := LastOwn(m, a);
      assert Own(l, a)[|Own(l, a)| - 1] == l[n].op == e.op;
      CommutesWithRest(p, e, q);
      MoveLast(x, p, e, q);
      hide Independent, Commute;
      forall b: nat ensures Own(l[..n], b) == Own(p + q, b) {
        assert Own(l, b) == Own(m, b);
        if b == a {
          assert Own(l[..n], a) == Own(l, a)[..|Own(l, a)| - 1] == Own(p, a);
        }
      }
      OrderIsIrrelevant(x, l[..n], p + q);
    }
  }

  lemma {:induction false} LoggedAgents<W>(s: State<W>, es: seq<Event>)
    requires Runs(s, es) && forall e :: e in s.done ==> e.agent < |s.agents|
    ensures forall e :: e in After(s, es).done ==> e.agent < |s.agents|
    decreases |es|
  {
    if es != [] {
      LoggedAgents(Apply(s, es[0]), es[1..]);
    }
  }

  ghost predicate MayMeet<W>(s: State<W>, a: nat, f: Op<W>, b: nat, g: Op<W>)
    requires a < |s.agents| && b < |s.agents|
  {
    f in s.agents[a].program && g in s.agents[b].program
  }

  /** The operations of different agents' programs may change places. */
  ghost predicate IndependentPrograms<W(!new)>(s: State<W>) {
    forall a, b, f, g | 0 <= a < |s.agents| && 0 <= b < |s.agents| && a != b :: MayMeet(s, a, f, b, g) ==> Commute(f, g)
  }

  /** A log in which every agent carries out its whole program, in whatever interleaving. */
  ghost predicate Schedule<W>(s: State<W>, log: seq<Entry<W>>) {
    && (forall e :: e in log ==> e.agent < |s.agents|)
    && (forall a :: 0 <= a < |s.agents| ==> Own(log, a) == s.agents[a].program)
  }

  lemma ScheduleIsIndependent<W(!new)>(s: State<W>, log: seq<Entry<W>>)
    requires IndependentPrograms(s) && Schedule(s, log)
    ensures Independent(log)
  {
    forall e, f | e in log && f in log && e.agent != f.agent ensures Commute(e.op, f.op) {
      var i :| 0 <= i < |log| && log[i] == e;
      var j :| 0 <= j < |log| && log[j] == f;
      OwnHas(log, i);
      OwnHas(log, j);
      assert MayMeet(s, e.agent, e.op, f.agent, f.op);
    }
  }

  lemma {:induction false} OwnedByNone<W>(log: seq<Entry<W>>, a: nat)
    requires forall e :: e in log ==> e.agent != a
    ensures Own(log, a) == []
    decreases |log|
  {
    if log != [] {
      OwnedByNone(log[..|log| - 1], a);
    }
  }

  /** When the agents' operations do not get in each other's way, every run that carries them all out
      leaves the same register, and it is the one that carrying them out one agent after another, in
      any order, leaves. */
  lemma EveryOrderAgrees<W(!new)>(s: State<W>, es: seq<Event>, log: seq<Entry<W>>)
    requires Initial(s) && IndependentPrograms(s)
    requires Runs(s, es) && StillCurrent(s, es) && Finished(After(s, es)) && Schedule(s, log)
    ensures After(s, es).reg == Fold(s.reg, log)
  {
    var s' := After(s, es);
    Linearizable(s, es);
    LoggedAgents(s, es);
    forall a: nat ensures Own(s'.done, a) == Own(log, a) {
      if a < |s.agents| {
        assert s'.agents[a] in s'.agents;
      } else {
        OwnedByNone(s'.done, a);
        OwnedByNone(log, a);
      }
    }
    ScheduleIsIndependent(s, log);
    OrderIsIrrelevant(s.reg, s'.done, log);
  }

  // ---------------------------------------------------------------- the plain forms

  /** The same operation without exclusive access. */
  ghost function PlainForm<W>(op: Op<W>): Op<W> {
    if op.Atomic? then Plain(op.f) else op
  }

  ghost function PlainForms<W>(ops: seq<Op<W>>): seq<Op<W>> {
    seq(|ops|, i requires 0 <= i < |ops| => PlainForm(ops[i]))
  }

  /** The same agents, with the plain form of every exclusive operation. */
  ghost function PlainAgents<W>(s: State<W>): State<W> {
    s.(agents := seq(|s.agents|, a requires 0 <= a < |s.agents| =>
         s.agents[a].(program := PlainForms(s.agents[a].program))))
  }

  ghost function PlainLog<W>(log: seq<Entry<W>>): seq<Entry<W>> {
    seq(|log|, i requires 0 <= i < |log| => log[i].(op := PlainForm(log[i].op)))
  }

  lemma {:induction false} PlainLogFolds<W>(x: W, log: seq<Entry<W>>, a: nat)
    ensures Fold(x, PlainLog(log)) == Fold(x, log)
    ensures Own(PlainLog(log), a) == PlainForms(Own(log, a))
    decreases |log|
  {
    if log != [] {
      var n := |log| - 1;
      assert PlainLog(log)[..n] == PlainLog(log[..n]);
      PlainLogFolds(x, log[..n], a);
      PlainFormsSnoc(Own(log[..n], a), log[n].op);
    }
  }

  lemma PlainFormsSnoc<W>(ops: seq<Op<W>>, op: Op<W>)
    ensures PlainForms(ops + [op]) == PlainForms(ops) + [PlainForm(op)]
    ensures PlainForms(ops + []) == PlainForms(ops) + []
  {
    assert ops + [] == ops;
  }

  lemma PlainIndependence<W(!new)>(s: State<W>)
    requires IndependentPrograms(s)
    ensures IndependentPrograms(PlainAgents(s))
  {
    var p := PlainAgents(s);
    forall a, b, f, g | 0 <= a < |p.agents| && 0 <= b < |p.agents| && a != b && MayMeet(p, a, f, b, g) ensures Commute(f, g) {
      var i :| 0 <= i < |s.agents[a].program| && PlainForm(s.agents[a].program[i]) == f;
      var j :| 0 <= j < |s.agents[b].program| && PlainForm(s.agents[b].program[j]) == g;
      var f', g' := s.agents[a].program[i], s.agents[b].program[j];
      assert MayMeet(s, a, f', b, g');
      forall x ensures f.Effect(g.Effect(x)) == g.Effect(f.Effect(x)) {
        assert f.Effect(g.Effect(x)) == f'.Effect(g'.Effect(x)) && g.Effect(f.Effect(x)) == g'.Effect(f'.Effect(x));
      }
    }
  }

  lemma PlainSchedule<W>(s: State<W>, log: seq<Entry<W>>)
    requires Schedule(s, log)
    ensures Schedule(PlainAgents(s), PlainLog(log))
  {
    forall e | e in PlainLog(log) ensures e.agent < |s.agents| {
      var i :| 0 <= i < |log| && PlainLog(log)[i] == e;
      assert log[i] in log;
    }
    forall a | 0 <= a < |s.agents| ensures Own(PlainLog(log), a) == PlainForms(s.agents[a].program) {
      PlainLogFolds(s.reg, log, a);
    }
  }

  lemma PlainInitial<W>(s: State<W>)
    requires Initial(s)
    ensures Initial(PlainAgents(s))
  {
    forall a | a in PlainAgents(s).agents ensures a.phase.Idle? && !a.reserved {
      var i :| 0 <= i < |s.agents| && PlainAgents(s).agents[i] == a;
      assert s.agents[i] in s.agents;
    }
  }

  /** Run one after another, or otherwise so that every plain store finds what its agent had loaded, the plain
      forms of operations that do not get in each other's way end as the operations themselves do. */
  lemma PlainInTurn<W(!new)>(s: State<W>, es: seq<Event>, log: seq<Entry<W>>)
    requires Initial(s) && IndependentPrograms(s) && Schedule(s, log)
    requires Runs(PlainAgents(s), es) && StillCurrent(PlainAgents(s), es) && Finished(After(PlainAgents(s), es))
    ensures After(PlainAgents(s), es).reg == Fold(s.reg, log)
  {
    PlainInitial(s);
    PlainIndependence(s);
    PlainSchedule(s, log);
    PlainLogFolds(s.reg, log, 0);
    EveryOrderAgrees(PlainAgents(s), es, PlainLog(log));
  }

  /** A plain load, change and store that nothing interrupts does to the register what the retry loop does. */
  lemma PlainAlone<W>(s: State<W>, a: nat)
    requires a < |s.agents| && s.agents[a].phase.Idle? && s.agents[a].program != [] && s.agents[a].program[0].Plain?
    ensures Enabled(s, Invoke(a)) && Enabled(Apply(s, Invoke(a)), Load(a))
    ensures var s2 := Apply(Apply(s, Invoke(a)), Load(a));
            && Enabled(s2, Store(a, true))
            && Apply(s2, Store(a, true)).reg == s.agents[a].program[0].f(s.reg)
  {
  }

  lemma Chain<W>(s: State<W>, e: Event, es: seq<Event>)
    requires Enabled(s, e) && Runs(Apply(s, e), es)
    ensures Runs(s, [e] + es) && After(s, [e] + es) == After(Apply(s, e), es)
  {
    assert ([e] + es)[1..] == es;
  }

  /** Two agents with one plain operation each, both of which have loaded `x`. */
  ghost function BothLoaded<W>(x: W, f: W -> W, g: W -> W): State<W> {
    State(x, [Agent([Plain(f)], Storing(x, 0), false), Agent([Plain(g)], Storing(x, 0), false)], [], 0)
  }

  ghost function NoneLoaded<W>(x: W, f: W -> W, g: W -> W): State<W> {
    State(x, [Agent([Plain(f)], Idle, false), Agent([Plain(g)], Idle, false)], [], 0)
  }

  ghost function BothStored<W>(x: W, f: W -> W, g: W -> W): State<W> {
    State(g(x), [Agent([], Returning(x), false), Agent([], Returning(x), false)],
          [Entry(0, Plain(f), x, 0), Entry(1, Plain(g), x, 0)], 0)
  }

  lemma BothLoad<W>(x: W, f: W -> W, g: W -> W, es: seq<Event>)
    requires Runs(BothLoaded(x, f, g), es)
    ensures var all := [Invoke(0)] + ([Invoke(1)] + ([Load(0)] + ([Load(1)] + es)));
            && Runs(NoneLoaded(x, f, g), all)
            && After(NoneLoaded(x, f, g), all) == After(BothLoaded(x, f, g), es)
  {
    var s, s4 := NoneLoaded(x, f, g), BothLoaded(x, f, g);
    var a, b := s.agents[0], s.agents[1];
    var s1 := s.(agents := [a.(phase := Loading), b]);
    var s2 := s.(agents := [a.(phase := Loading), b.(phase := Loading)]);
    var s3 := s.(agents := [a.(phase := Storing(x, 0)), b.(phase := Loading)]);
    assert Apply(s, Invoke(0)) == s1 && Apply(s1, Invoke(1)) == s2;
    assert Apply(s2, Load(0)) == s3 && Apply(s3, Load(1)) == s4;
    hide Runs, After, Apply;
    Chain(s3, Load(1), es);
    Chain(s2, Load(0), [Load(1)] + es);
    Chain(s1, Invoke(1), [Load(0)] + ([Load(1)] + es));
    Chain(s, Invoke(0), [Invoke(1)] + ([Load(0)] + ([Load(1)] + es)));
  }

  lemma BothStore<W>(x: W, f: W -> W, g: W -> W)
    ensures var es := [Store(0, true)] + ([Store(1, true)] + []);
            && Runs(BothLoaded(x, f, g), es)
            && After(BothLoaded(x, f, g), es) == BothStored(x, f, g)
  {
    var s4, s6 := BothLoaded(x, f, g), BothStored(x, f, g);
    var s5 := State(f(x), [s6.agents[0], s4.agents[1]], [s6.done[0]], 0);
    assert [Plain(f)][1..] == [] && [Plain(g)][1..] == [];
    assert Apply(s4, Store(0, true)).agents == s5.agents;
    assert Apply(s5, Store(1, true)).agents == s6.agents;
    assert Runs(s6, []) && After(s6, []) == s6;
    hide Runs, After, Apply;
    Chain(s5, Store(1, true), []);
    Chain(s4, Store(0, true), [Store(1, true)] + []);
  }

  /** Two agents that load, change and store without exclusive access can lose an update, whatever they
      compute: if both load before either stores, only the second one's result remains. */
  lemma PlainLosesUpdate<W>(x: W, f: W -> W, g: W -> W) returns (s: State<W>, es: seq<Event>)
    ensures Initial(s) && Runs(s, es) && Finished(After(s, es))
    ensures s.reg == x && After(s, es).reg == g(x) && Fold(x, After(s, es).done) == g(f(x))
  {
    s := NoneLoaded(x, f, g);
    assert Initial(s) && Finished(BothStored(x, f, g));
    FoldTwo(x, Entry(0, Plain(f), x, 0), Entry(1, Plain(g), x, 0));
    hide Runs, After, Fold;
    var stores := [Store(0, true)] + ([Store(1, true)] + []);
    BothStore(x, f, g);
    BothLoad(x, f, g, stores);
    es := [Invoke(0)] + ([Invoke(1)] + ([Load(0)] + ([Load(1)] + stores)));
  }

  lemma FoldTwo<W>(x: W, e1: Entry<W>, e2: Entry<W>)
    ensures Fold(x, [e1, e2]) == e2.op.Effect(e1.op.Effect(x))
  {
    Snoc(x, [], e1, 0);
    Snoc(x, [e1], e2, 0);
    assert [] + [e1] == [e1] && [e1] + [e2] == [e1, e2];
  }
}
