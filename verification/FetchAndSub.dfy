/** The fabric's atomic decrement as a retry loop: the recipients of a message count down its shared
    16-bit count, and exactly one of them sees 1. */
module FetchAndSub {
  import opened Exclusive
  import opened FabricTypes

  /** Every agent is a recipient that counts down once, and the count is their number. */
  ghost predicate Recipients(s: State<nat>) {
    && Initial(s) && s.reg == |s.agents| < COUNT_RANGE
    && forall a | a in s.agents :: a.program == [Atomic(CountMinusOne)]
  }

  ghost predicate AllCountDown(log: seq<Entry<nat>>) {
    forall e | e in log :: e.op == Atomic(CountMinusOne)
  }

  lemma {:induction false} CountsDown(n: nat, log: seq<Entry<nat>>)
    requires AllCountDown(log) && |log| <= n < COUNT_RANGE
    ensures Fold(n, log) == n - |log|
    decreases |log|
  {
    if log != [] {
      var rest := log[..|log| - 1];
      assert log[|log| - 1] in log;
      assert forall e | e in rest :: e in log;
      CountsDown(n, rest);
    }
  }

  /** How many entries of a log the first `n` agents have. */
  ghost function Total(log: seq<Entry<nat>>, n: nat): nat {
    if n == 0 then 0 else Total(log, n - 1) + |Own(log, n - 1)|
  }

  lemma {:induction false} TotalSnoc(log: seq<Entry<nat>>, e: Entry<nat>, n: nat)
    ensures Total(log + [e], n) == Total(log, n) + if e.agent < n then 1 else 0
    decreases n
  {
    if n > 0 {
      Snoc(e.seen, log, e, n - 1);
      TotalSnoc(log, e, n - 1);
    }
  }

  lemma {:induction false} TotalIsLength(log: seq<Entry<nat>>, n: nat)
    requires forall e :: e in log ==> e.agent < n
    ensures Total(log, n) == |log|
    decreases |log|
  {
    if log == [] {
      TotalOfNothing(n);
    } else {
      var rest, e := log[..|log| - 1], log[|log| - 1];
      assert log == rest + [e] && e in log;
      assert forall f | f in rest :: f in log;
      TotalSnoc(rest, e, n);
      TotalIsLength(rest, n);
    }
  }

  lemma {:induction false} TotalOfNothing(n: nat)
    ensures Total([], n) == 0
  {
    if n > 0 {
      TotalOfNothing(n - 1);
    }
  }

  lemma {:induction false} TotalAtMost(log: seq<Entry<nat>>, n: nat)
    requires forall a :: 0 <= a < n ==> |Own(log, a)| <= 1
    ensures Total(log, n) <= n
    ensures (forall a :: 0 <= a < n ==> |Own(log, a)| == 1) ==> Total(log, n) == n
  {
    if n > 0 {
      TotalAtMost(log, n - 1);
    }
  }

  lemma AgentCounts(s: State<nat>, es: seq<Event>, a: nat)
    requires Recipients(s) && Runs(s, es) && a < |s.agents|
    ensures |After(s, es).agents| == |s.agents|
    ensures Own(After(s, es).done, a) + After(s, es).agents[a].program == [Atomic(CountMinusOne)]
  {
    RunCounts(s, es, a);
    assert s.agents[a] in s.agents;
  }

  lemma LogCountsDown(s: State<nat>, es: seq<Event>)
    requires Recipients(s) && Runs(s, es)
    ensures AllCountDown(After(s, es).done) && |After(s, es).done| <= |s.agents|
    ensures Finished(After(s, es)) ==> |After(s, es).done| == |s.agents|
  {
    var s', n := After(s, es), |s.agents|;
    LoggedAgents(s, es);
    AgentsStay(s, es);
    forall a | 0 <= a < n
      ensures |Own(s'.done, a)| <= 1 && (Finished(s') ==> |Own(s'.done, a)| == 1)
      ensures forall op | op in Own(s'.done, a) :: op == Atomic(CountMinusOne)
    {
      AgentCounts(s, es, a);
      assert s'.agents[a] in s'.agents;
      assert forall op | op in Own(s'.done, a) :: op in Own(s'.done, a) + s'.agents[a].program;
    }
    forall e | e in s'.done ensures e.op == Atomic(CountMinusOne) {
      var i :| 0 <= i < |s'.done| && s'.done[i] == e;
      OwnHas(s'.done, i);
    }
    TotalIsLength(s'.done, n);
    TotalAtMost(s'.done, n);
  }

  /** The recipients see the count go down one by one, from their number to 1, in the order in which they
      count down. So at no time has more than one of them seen 1, the one that has is the last, and once
      all have counted down exactly one has and the count is 0. */
  lemma LastIsUnique(s: State<nat>, es: seq<Event>)
    requires Recipients(s) && Runs(s, es)
    ensures var s', n := After(s, es), |s.agents|;
            && |s'.done| <= n && s'.reg == n - |s'.done|
            && (forall i :: 0 <= i < |s'.done| ==> s'.done[i].seen == n - i)
            && (Finished(s') ==> |s'.done| == n && s'.reg == 0)
  {
    var s', n := After(s, es), |s.agents|;
    assert NoPlain(s) by {
      forall a, i | 0 <= a < |s.agents| && 0 <= i < |s.agents[a].program| ensures !s.agents[a].program[i].Plain? {
        assert s.agents[a] in s.agents;
      }
    }
    NoPlainIsCurrent(s, es);
    Linearizable(s, es);
    LogCountsDown(s, es);
    CountsDown(n, s'.done);
    forall i | 0 <= i < |s'.done| ensures s'.done[i].seen == n - i {
      assert forall e | e in s'.done[..i] :: e in s'.done;
      CountsDown(n, s'.done[..i]);
      assert s'.done[i] in s'.done;
    }
  }
}
