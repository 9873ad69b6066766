/** The dining philosophers of benchmark/tsx/DiningPhilosophers: each protected operation of a fork is one
    step, and a philosopher takes the fork with the lower number first. */
module DiningPhilosophers {
  datatype Pc = TryFirst | TrySecond | PutFirst | PutSecond | Finished

  /** `left`: meals still to have, the present one included. */
  datatype Philosopher = Philosopher(pc: Pc, left: int)

  /** Philosopher i + 1 is phils[i], and fork f is free[f - 1]. */
  datatype State = State(free: seq<bool>, phils: seq<Philosopher>)

  // ------------------------------------------------------------ Set_PID

  function First(pid: int, n: int): int
    requires n > 0
  {
    if (pid + 1) % n != 1 then pid else 1
  }

  function Second(pid: int, n: int): int
    requires n > 0
  {
    if (pid + 1) % n != 1 then pid + 1 else pid
  }

  /** Both forks exist and the first is below the second, for all philosophers, exactly when there are two
      philosophers or more: a single one would ask for a second fork that does not exist. */
  lemma ForkOrderIff(n: int)
    requires n > 0
    ensures (forall pid | 1 <= pid <= n :: 1 <= First(pid, n) < Second(pid, n) <= n) <==> n >= 2
    ensures n == 1 ==> Second(1, n) == 2
  {
    if n >= 2 {
      forall pid | 1 <= pid <= n
        ensures 1 <= First(pid, n) < Second(pid, n) <= n
      {
        ForkOrder(pid, n);
      }
    } else {
      assert First(1, 1) == 1 && Second(1, 1) == 2;
    }
  }

  lemma ForkOrder(pid: int, n: int)
    requires n >= 2 && 1 <= pid <= n
    ensures 1 <= First(pid, n) < Second(pid, n) <= n
    ensures pid < n ==> First(pid, n) == pid && Second(pid, n) == pid + 1
    ensures pid == n ==> First(pid, n) == 1 && Second(pid, n) == n
  {
    if pid == n {
      assert (n + 1) % n == 1;
    } else if pid + 1 < n {
      assert (pid + 1) % n == pid + 1;
    }
  }

  /** Neighbours at the table share a fork: each fork belongs to the philosopher of its number and to the one before,
      and to nobody else. */
  lemma ForkBetweenNeighbours(f: int, pid: int, n: int)
    requires n >= 2 && 1 <= pid <= n && 1 <= f <= n
    ensures f == First(pid, n) || f == Second(pid, n) <==> f == pid || f == pid % n + 1
  {
    ForkOrder(pid, n);
    if pid < n {
      assert pid % n == pid;
    }
  }

  // ------------------------------------------------------------ steps

  ghost predicate Init(s: State) {
    && |s.free| == |s.phils| && (forall f | 0 <= f < |s.free| :: s.free[f])
    && forall p | 0 <= p < |s.phils| :: s.phils[p].pc == if s.phils[p].left > 0 then TryFirst else Finished
  }

  function FirstOf(s: State, p: nat): int
    requires p < |s.phils|
  {
    First(p + 1, |s.phils|)
  }

  function SecondOf(s: State, p: nat): int
    requires p < |s.phils|
  {
    Second(p + 1, |s.phils|)
  }

  predicate Free(s: State, f: int) { 1 <= f <= |s.free| && s.free[f - 1] }

  ghost predicate Step(s: State, s': State, p: nat) {
    && p < |s.phils|
    && var t := s.phils[p];
       var first, second := FirstOf(s, p), SecondOf(s, p);
       && 1 <= first <= |s.free| && 1 <= second <= |s.free|
       && match t.pc
          case TryFirst =>
            s' == if Free(s, first) then State(s.free[first - 1 := false], s.phils[p := t.(pc := TrySecond)]) else s
          case TrySecond =>
            s' == if Free(s, second) then State(s.free[second - 1 := false], s.phils[p := t.(pc := PutFirst)]) else s
          case PutFirst => s' == State(s.free[first - 1 := true], s.phils[p := t.(pc := PutSecond)])
          case PutSecond =>
            s' == State(s.free[second - 1 := true],
                        s.phils[p := Philosopher(if t.left > 1 then TryFirst else Finished, t.left - 1)])
          case Finished => false
  }

  ghost predicate IsRun(r: seq<State>, who: seq<nat>) {
    && |r| > 0 && |who| == |r| - 1 && Init(r[0]) && |r[0].phils| >= 2
    && forall i | 0 <= i < |who| :: Step(r[i], r[i + 1], who[i])
  }

  // ------------------------------------------------------------ invariant

  predicate Holds(s: State, p: nat, f: int)
    requires p < |s.phils|
  {
    match s.phils[p].pc
    case TrySecond => f == FirstOf(s, p)
    case PutFirst => f == FirstOf(s, p) || f == SecondOf(s, p)
    case PutSecond => f == SecondOf(s, p)
    case _ => false
  }

  /** A fork has one holder or is free. */
  ghost predicate ForkOk(s: State, f: int) {
    && (forall p, q | 0 <= p < q < |s.phils| :: !(Holds(s, p, f) && Holds(s, q, f)))
    && (Free(s, f) <==> forall p | 0 <= p < |s.phils| :: !Holds(s, p, f))
  }

  ghost predicate Inv(s: State) {
    && |s.free| == |s.phils| >= 2
    && (forall f | 1 <= f <= |s.free| :: ForkOk(s, f))
    && (forall p | 0 <= p < |s.phils| :: s.phils[p].pc.Finished? || s.phils[p].left > 0)
  }

  lemma StepInv(s: State, s': State, p: nat)
    requires Inv(s) && Step(s, s', p)
    ensures Inv(s')
  {
    ForkOrder(p + 1, |s.phils|);
    forall f | 1 <= f <= |s'.free|
      ensures ForkOk(s', f)
    {
      assert ForkOk(s, f);
      StepFork(s, s', p, f);
    }
    hide ForkOk;
  }

  lemma StepFork(s: State, s': State, p: nat, f: int)
    requires |s.free| == |s.phils| && Step(s, s', p) && 1 <= f <= |s.free| && ForkOk(s, f)
    requires FirstOf(s, p) < SecondOf(s, p)
    ensures ForkOk(s', f)
  {
    forall q | 0 <= q < |s.phils| && q != p
      ensures Holds(s', q, f) <==> Holds(s, q, f)
    {
    }
    assert Holds(s', p, f) || !Holds(s', p, f);
    assert Holds(s, p, f) || !Holds(s, p, f);
  }

  lemma {:induction false} RunInv(r: seq<State>, who: seq<nat>, i: nat)
    requires IsRun(r, who) && i < |r|
    ensures Inv(r[i]) && |r[i].phils| == |r[0].phils|
  {
    if i > 0 {
      RunInv(r, who, i - 1);
      assert Step(r[i - 1], r[i], who[i - 1]);
      hide IsRun;
      StepInv(r[i - 1], r[i], who[i - 1]);
    }
  }

  /** Any two or more philosophers may start, each with any number of meals to have. */
  lemma CanStart(meals: seq<nat>) returns (s: State)
    requires |meals| >= 2
    ensures |s.phils| == |meals| && forall p | 0 <= p < |meals| :: s.phils[p].left == meals[p]
    ensures IsRun([s], [])
  {
    s := State(seq(|meals|, f => true),
               seq(|meals|, p requires 0 <= p < |meals| =>
                 Philosopher(if meals[p] > 0 then TryFirst else Finished, meals[p])));
  }

  /** The seat after `p`, around the table. */
  function NextSeat(p: nat, n: nat): nat { if p + 1 < n then p + 1 else 0 }

  /** Philosopher p + 1 eats with the fork of that number and that of the next seat. */
  lemma EatsWith(s: State, p: nat, f: int)
    requires |s.phils| >= 2 && p < |s.phils| && s.phils[p].pc.PutFirst? && 1 <= f <= |s.phils|
    ensures Holds(s, p, f) <==> f == p + 1 || f == NextSeat(p, |s.phils|) + 1
  {
    ForkBetweenNeighbours(f, p + 1, |s.phils|);
  }

  lemma NeighboursApart(s: State, p: nat, q: nat)
    requires Inv(s) && p < |s.phils| && q == NextSeat(p, |s.phils|) && s.phils[p].pc.PutFirst?
    ensures !s.phils[q].pc.PutFirst?
  {
    assert ForkOk(s, q + 1);
    EatsWith(s, p, q + 1);
    hide FirstOf, SecondOf, First, Second;
    if s.phils[q].pc.PutFirst? {
      EatsWith(s, q, q + 1);
    }
  }

  /** In every run, two that sit side by side never eat at the same time. */
  lemma NeighboursNeverEatTogether(r: seq<State>, who: seq<nat>, i: nat, p: nat)
    requires IsRun(r, who) && i < |r| && p < |r[i].phils| && r[i].phils[p].pc.PutFirst?
    ensures var q := NextSeat(p, |r[i].phils|); q < |r[i].phils| && !r[i].phils[q].pc.PutFirst?
  {
    RunInv(r, who, i);
    hide IsRun, ForkOk;
    NeighboursApart(r[i], p, NextSeat(p, |r[i].phils|));
  }

  // ------------------------------------------------------------ no deadlock

  predicate Blocked(s: State, p: nat)
    requires p < |s.phils|
  {
    || (s.phils[p].pc.TryFirst? && !Free(s, FirstOf(s, p)))
    || (s.phils[p].pc.TrySecond? && !Free(s, SecondOf(s, p)))
  }

  /** Whoever waits for a second fork waits for one with a higher number than it holds, so the chain of
      waiting ends at somebody who can go on. */
  lemma {:induction false} HolderGoes(s: State, p: nat, f: int) returns (q: nat)
    requires Inv(s) && p < |s.phils| && 1 <= f <= |s.free| && Holds(s, p, f)
    ensures q < |s.phils| && !s.phils[q].pc.Finished? && !Blocked(s, q)
    decreases |s.free| - f
  {
    q := p;
    ForkOrder(p + 1, |s.phils|);
    if Blocked(s, p) {
      var g := SecondOf(s, p);
      assert ForkOk(s, g);
      var h: nat :| h < |s.phils| && Holds(s, h, g);
      q := HolderGoes(s, h, g);
    }
  }

  /** As long as somebody has not finished, somebody not finished can go on. */
  lemma SomeoneGoes(s: State, p: nat) returns (q: nat)
    requires Inv(s) && p < |s.phils| && !s.phils[p].pc.Finished?
    ensures q < |s.phils| && !s.phils[q].pc.Finished? && !Blocked(s, q)
  {
    q := p;
    ForkOrder(p + 1, |s.phils|);
    if Blocked(s, p) {
      var f := if s.phils[p].pc.TryFirst? then FirstOf(s, p) else SecondOf(s, p);
      assert ForkOk(s, f);
      var h: nat :| h < |s.phils| && Holds(s, h, f);
      q := HolderGoes(s, h, f);
    }
  }

  // ------------------------------------------------------------ the end

  /** The steps philosopher `t` still has to take, but for waiting. */
  function ToDo(t: Philosopher): nat {
    if t.left <= 0 then 0 else
      match t.pc
      case TryFirst => 4 * t.left
      case TrySecond => 4 * t.left - 1
      case PutFirst => 4 * t.left - 2
      case PutSecond => 4 * t.left - 3
      case Finished => 0
  }

  function TotalToDo(ts: seq<Philosopher>): nat {
    if ts == [] then 0 else TotalToDo(ts[..|ts| - 1]) + ToDo(ts[|ts| - 1])
  }

  lemma {:induction false} TotalChanges(ts: seq<Philosopher>, p: nat, t: Philosopher)
    requires p < |ts|
    ensures TotalToDo(ts[p := t]) == TotalToDo(ts) - ToDo(ts[p]) + ToDo(t)
  {
    var n := |ts| - 1;
    if p < n {
      TotalChanges(ts[..n], p, t);
      assert ts[p := t][..n] == ts[..n][p := t];
    } else {
      assert ts[p := t][..n] == ts[..n];
    }
  }

  /** A step of somebody blocked changes nothing, and every other step is one less to do. */
  lemma StepCounts(s: State, s': State, p: nat)
    requires Inv(s) && Step(s, s', p)
    ensures if Blocked(s, p) then s' == s else TotalToDo(s'.phils) == TotalToDo(s.phils) - 1
  {
    if !Blocked(s, p) {
      TotalChanges(s.phils, p, s'.phils[p]);
      assert s'.phils == s.phils[p := s'.phils[p]];
    }
    hide ForkOk;
  }

  /** Whoever has not finished has a step. */
  lemma HasStep(s: State, p: nat) returns (s': State)
    requires Inv(s) && p < |s.phils| && !s.phils[p].pc.Finished?
    ensures Step(s, s', p)
  {
    ForkOrder(p + 1, |s.phils|);
    var t, first, second := s.phils[p], FirstOf(s, p), SecondOf(s, p);
    match t.pc
    case TryFirst =>
      s' := if Free(s, first) then State(s.free[first - 1 := false], s.phils[p := t.(pc := TrySecond)]) else s;
    case TrySecond =>
      s' := if Free(s, second) then State(s.free[second - 1 := false], s.phils[p := t.(pc := PutFirst)]) else s;
    case PutFirst => s' := State(s.free[first - 1 := true], s.phils[p := t.(pc := PutSecond)]);
    case PutSecond =>
      s' := State(s.free[second - 1 := true],
                  s.phils[p := Philosopher(if t.left > 1 then TryFirst else Finished, t.left - 1)]);
  }

  function Moves(r: seq<State>, i: nat): nat
    requires i < |r|
  {
    if i == 0 then 0 else Moves(r, i - 1) + if r[i] != r[i - 1] then 1 else 0
  }

  /** In every run the steps that are not mere waiting and those still to do are as many as at the start:
      four for each meal of each philosopher. */
  lemma {:induction false} MovesBounded(r: seq<State>, who: seq<nat>, i: nat)
    requires IsRun(r, who) && i < |r|
    ensures Moves(r, i) + TotalToDo(r[i].phils) == TotalToDo(r[0].phils)
  {
    if i > 0 {
      MovesBounded(r, who, i - 1);
      RunInv(r, who, i - 1);
      assert Step(r[i - 1], r[i], who[i - 1]);
      hide IsRun;
      StepCounts(r[i - 1], r[i], who[i - 1]);
    }
  }

  /** In every reachable state either somebody not finished can go on, or all have finished and all forks
      are free. */
  lemma GoesOnOrEnds(r: seq<State>, who: seq<nat>, i: nat) returns (q: nat, s': State)
    requires IsRun(r, who) && i < |r|
    ensures (q < |r[i].phils| && Step(r[i], s', q) && TotalToDo(s'.phils) == TotalToDo(r[i].phils) - 1)
         || ((forall p | 0 <= p < |r[i].phils| :: r[i].phils[p].pc.Finished?)
             && forall f | 1 <= f <= |r[i].free| :: Free(r[i], f))
  {
    var s := r[i];
    RunInv(r, who, i);
    hide IsRun;
    q, s' := 0, s;
    if p: nat :| p < |s.phils| && !s.phils[p].pc.Finished? {
      q := SomeoneGoes(s, p);
      s' := HasStep(s, q);
      StepCounts(s, s', q);
    } else {
      forall f | 1 <= f <= |s.free|
        ensures Free(s, f)
      {
        assert ForkOk(s, f);
      }
    }
  }
}
