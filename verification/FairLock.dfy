/** The fair synchronisation algorithm of benchmark/blocking/Taubenfeld/fair_lock_sc.cpp.

    Every access to a shared atomic is one step.  A thread's own `state` is written by nobody else, so
    its value is kept in the program counter as `v` once it has been chosen. */
module FairLock {
  datatype Pc =
    | Out
    | ReadGroup                      // state is 2
    | Choose(v: int)                 // has read `group`, state is still 2
    | Test(v: int, j: nat)           // loop head: compares with `group`
    | Await(v: int, j: nat)          // while state[j] == 2
    | Compare(v: int, j: nat)        // if state[j] == 1 - v
    | SpinState(v: int, j: nat)      // while state[j] == 1 - v ...
    | SpinGroup(v: int, j: nat)      // ... and v == group
    | LockSpin(v: int)
    | LockTry(v: int)
    | Critical(v: int)
    | Flip(v: int)                   // about to write `group`
    | Leave(v: int)                  // about to write 3

  datatype Thread = Thread(pc: Pc, state: int)

  datatype State = State(group: int, locked: bool, threads: seq<Thread>)

  datatype Action =
    | Begin | LoadGroup | StoreChoice | LoopTest | AwaitDoor | CompareGroups | SpinOnState | SpinOnGroup
    | LoadLocked | Exchange | Unlock | StoreGroup | StoreInactive

  ghost predicate Init(s: State) {
    && 0 <= s.group <= 1 && !s.locked
    && forall p | 0 <= p < |s.threads| :: s.threads[p] == Thread(Out, 3)
  }

  /** Where the loop goes on after index `j`. */
  function Next(s: State, v: int, j: nat): Pc {
    if j + 1 < |s.threads| then Test(v, j + 1) else LockSpin(v)
  }

  function Goto(s: State, p: nat, pc: Pc): seq<Thread>
    requires p < |s.threads|
  {
    s.threads[p := Thread(pc, s.threads[p].state)]
  }

  function StateOf(s: State, j: nat): int { if j < |s.threads| then s.threads[j].state else 3 }

  ghost predicate Step(s: State, s': State, p: nat, a: Action) {
    && p < |s.threads|
    && var pc := s.threads[p].pc;
       match a
       case Begin => pc.Out? && s' == s.(threads := s.threads[p := Thread(ReadGroup, 2)])
       case LoadGroup => pc.ReadGroup? && s' == s.(threads := Goto(s, p, Choose(s.group)))
       case StoreChoice => pc.Choose? && s' == s.(threads := s.threads[p := Thread(Test(pc.v, 0), pc.v)])
       case LoopTest =>
         pc.Test? && s' == s.(threads := Goto(s, p, if s.group != pc.v then LockSpin(pc.v) else Await(pc.v, pc.j)))
       case AwaitDoor =>
         pc.Await? && s' == s.(threads := Goto(s, p, if StateOf(s, pc.j) == 2 then pc else Compare(pc.v, pc.j)))
       case CompareGroups =>
         pc.Compare? && s' == s.(threads := Goto(s, p,
           if StateOf(s, pc.j) == 1 - pc.v then SpinState(pc.v, pc.j) else Next(s, pc.v, pc.j)))
       case SpinOnState =>
         pc.SpinState? && s' == s.(threads := Goto(s, p,
           if StateOf(s, pc.j) == 1 - pc.v then SpinGroup(pc.v, pc.j) else Next(s, pc.v, pc.j)))
       case SpinOnGroup =>
         pc.SpinGroup? && s' == s.(threads := Goto(s, p,
           if s.group == pc.v then SpinState(pc.v, pc.j) else Next(s, pc.v, pc.j)))
       case LoadLocked =>
         pc.LockSpin? && s' == s.(threads := Goto(s, p, if s.locked then pc else LockTry(pc.v)))
       case Exchange =>
         pc.LockTry? && s' == s.(locked := true,
           threads := Goto(s, p, if s.locked then LockSpin(pc.v) else Critical(pc.v)))
       case Unlock => pc.Critical? && s' == s.(locked := false, threads := Goto(s, p, Flip(pc.v)))
       case StoreGroup => pc.Flip? && s' == s.(group := 1 - pc.v, threads := Goto(s, p, Leave(pc.v)))
       case StoreInactive => pc.Leave? && s' == s.(threads := s.threads[p := Thread(Out, 3)])
  }

  ghost predicate IsRun(r: seq<State>, who: seq<nat>, acts: seq<Action>) {
    && |r| > 0 && |who| == |acts| == |r| - 1
    && Init(r[0])
    && (forall i | 0 <= i < |who| :: Step(r[i], r[i + 1], who[i], acts[i]))
  }

  // ------------------------------------------------------------ invariant

  /** Has read `group == v` and not yet stored 3. */
  predicate Carries(pc: Pc, v: int) { !pc.Out? && !pc.ReadGroup? && pc.v == v }

  predicate InLoop(pc: Pc) { pc.Test? || pc.Await? || pc.Compare? || pc.SpinState? || pc.SpinGroup? }

  /** From the end of the waiting section to the write of `group`. */
  predicate InFair(pc: Pc) { pc.LockSpin? || pc.LockTry? || pc.Critical? || pc.Flip? }

  /** The waiting loop is done with index `k`. */
  predicate Passed(pc: Pc, k: nat) {
    InFair(pc) || pc.Leave? || (InLoop(pc) && k < pc.j)
  }

  /** Has seen `state[k] != 2` at its present index. */
  predicate SawChosen(pc: Pc, k: nat) { (pc.Compare? || pc.SpinState? || pc.SpinGroup?) && pc.j == k }

  ghost predicate PcOk(s: State, p: nat)
    requires p < |s.threads|
  {
    var t := s.threads[p];
    match t.pc
    case Out => t.state == 3
    case ReadGroup => t.state == 2
    case Choose(v) => t.state == 2 && 0 <= v <= 1
    case _ => 0 <= t.pc.v <= 1 && t.state == t.pc.v && (InLoop(t.pc) ==> t.pc.j < |s.threads|)
  }

  /** While `group` is still what `p` has read, no thread that `p` has passed carries the other value, and
      a thread at its present index that does shows it in its `state`. */
  ghost predicate PairOk(s: State, p: nat, k: nat)
    requires p < |s.threads| && k < |s.threads|
  {
    var pc, other := s.threads[p].pc, s.threads[k];
    Carries(pc, s.group) && Carries(other.pc, 1 - s.group) ==>
      !Passed(pc, k) && (SawChosen(pc, k) ==> other.state == 1 - s.group)
  }

  ghost predicate LockOk(s: State) {
    && (forall p, q | 0 <= p < q < |s.threads| :: !(s.threads[p].pc.Critical? && s.threads[q].pc.Critical?))
    && (s.locked <==> exists p | 0 <= p < |s.threads| :: s.threads[p].pc.Critical?)
  }

  ghost predicate Inv(s: State) {
    && 0 <= s.group <= 1 && LockOk(s)
    && (forall p | 0 <= p < |s.threads| :: PcOk(s, p))
    && (forall p, k | 0 <= p < |s.threads| && 0 <= k < |s.threads| :: PairOk(s, p, k))
  }

  // ------------------------------------------------------------ every step keeps it

  /** Only `p` moves. */
  ghost predicate Moves(s: State, s': State, p: nat) {
    && p < |s.threads| == |s'.threads|
    && forall q | 0 <= q < |s.threads| && q != p :: s'.threads[q] == s.threads[q]
  }

  lemma StepPc(s: State, s': State, p: nat, a: Action)
    requires Step(s, s', p, a) && PcOk(s, p) && 0 <= s.group <= 1
    ensures Moves(s, s', p) && PcOk(s', p) && 0 <= s'.group <= 1
    ensures s'.group == s.group || (a.StoreGroup? && s'.group == 1 - s.group)
  {
  }

  lemma StepLock(s: State, s': State, p: nat, a: Action)
    requires Step(s, s', p, a) && LockOk(s)
    ensures LockOk(s')
  {
    if a.Exchange? && !s.locked {
      assert s'.threads[p].pc.Critical?;
    } else if a.Unlock? {
      assert s.threads[p].pc.Critical?;
    } else {
      forall q | 0 <= q < |s.threads|
        ensures s'.threads[q].pc.Critical? <==> s.threads[q].pc.Critical?
      {
      }
    }
  }

  /** Whenever `group` flips from b to 1 - b, no thread carries 1 - b. */
  lemma FlipIsSafe(s: State, s': State, p: nat, a: Action, k: nat)
    requires Inv(s) && Step(s, s', p, a) && s'.group != s.group && k < |s.threads|
    ensures !Carries(s.threads[k].pc, s'.group)
  {
    assert PcOk(s, p) && PcOk(s, k) && PairOk(s, p, k);
  }

  /** A pair of which neither member moves. */
  lemma PairApart(s: State, s': State, p: nat, q: nat, k: nat)
    requires Moves(s, s', p) && q < |s.threads| && k < |s.threads| && q != p && k != p
    requires s'.group == s.group && PairOk(s, q, k)
    ensures PairOk(s', q, k)
  {
  }

  /** The pair in which the mover is the one that waits. */
  lemma PairFirst(s: State, s': State, p: nat, a: Action, k: nat)
    requires Step(s, s', p, a) && k < |s.threads| == |s'.threads| && s'.group == s.group && 0 <= s.group <= 1
    requires PcOk(s, p) && PcOk(s, k) && PairOk(s, p, k)
    ensures PairOk(s', p, k)
  {
  }

  /** The pair in which the mover is the one waited for. */
  lemma PairSecond(s: State, s': State, p: nat, a: Action, q: nat)
    requires Step(s, s', p, a) && q < |s.threads| == |s'.threads| && s'.group == s.group && 0 <= s.group <= 1
    requires PcOk(s, p) && PcOk(s, q) && PairOk(s, q, p) && q != p
    ensures PairOk(s', q, p)
  {
  }

  lemma StepPairs(s: State, s': State, p: nat, a: Action, q: nat, k: nat)
    requires Inv(s) && Step(s, s', p, a) && Moves(s, s', p) && q < |s.threads| && k < |s.threads|
    ensures PairOk(s', q, k)
  {
    assert PcOk(s, p) && PcOk(s, q) && PcOk(s, k) && PairOk(s, q, k);
    StepPc(s, s', p, a);
    if s'.group != s.group {
      FlipIsSafe(s, s', p, a, q);
    } else if q == p {
      hide Inv;
      PairFirst(s, s', p, a, k);
    } else if k == p {
      hide Inv;
      PairSecond(s, s', p, a, q);
    } else {
      hide Inv, Step;
      PairApart(s, s', p, q, k);
    }
  }

  lemma StepInv(s: State, s': State, p: nat, a: Action)
    requires Inv(s) && Step(s, s', p, a)
    ensures Inv(s') && Moves(s, s', p)
  {
    assert PcOk(s, p);
    StepPc(s, s', p, a);
    StepLock(s, s', p, a);
    forall q, k | 0 <= q < |s.threads| && 0 <= k < |s.threads|
      ensures PairOk(s', q, k)
    {
      StepPairs(s, s', p, a, q, k);
    }
    hide Step, PairOk, LockOk;
    forall q | 0 <= q < |s.threads|
      ensures PcOk(s', q)
    {
      assert PcOk(s, q);
    }
  }

  lemma {:induction false} RunInv(r: seq<State>, who: seq<nat>, acts: seq<Action>, i: nat)
    requires IsRun(r, who, acts) && i < |r|
    ensures Inv(r[i]) && |r[i].threads| == |r[0].threads|
  {
    hide Step, Inv, Moves;
    if i == 0 {
      InitInv(r[0]);
    } else {
      RunInv(r, who, acts, i - 1);
      assert Step(r[i - 1], r[i], who[i - 1], acts[i - 1]);
      StepInv(r[i - 1], r[i], who[i - 1], acts[i - 1]);
      SameCount(r[i - 1], r[i], who[i - 1], acts[i - 1]);
    }
  }

  lemma SameCount(s: State, s': State, p: nat, a: Action)
    requires Step(s, s', p, a)
    ensures |s'.threads| == |s.threads|
  {
  }

  lemma InitInv(s: State)
    requires Init(s)
    ensures Inv(s)
  {
  }

  /** Any number of threads and either group may start. */
  lemma CanStart(n: nat, group: int) returns (s: State)
    requires 0 <= group <= 1
    ensures |s.threads| == n && s.group == group && IsRun([s], [], [])
  {
    s := State(group, false, seq(n, i => Thread(Out, 3)));
  }

  /** At most one thread is between `lock` and `unlock`, in every run. */
  lemma MutualExclusion(r: seq<State>, who: seq<nat>, acts: seq<Action>, i: nat, p: nat, q: nat)
    requires IsRun(r, who, acts) && i < |r| && p < |r[i].threads| && q < |r[i].threads|
    requires r[i].threads[p].pc.Critical? && r[i].threads[q].pc.Critical?
    ensures p == q
  {
    RunInv(r, who, acts, i);
    assert LockOk(r[i]);
  }
}
