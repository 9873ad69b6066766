/** The array lock never deadlocks: with every step a thread that does not have to wait gets nearer to the end of what
    it is doing, and there always is such a thread. */
module ArrayLockProgress {
  import opened ArrayLock
  import opened ArrayLockProof
  import opened SetFacts

  /** The condition on which `p` waits holds until some other thread moves. */
  ghost predicate Blocked(s: State, p: nat)
    requires p < |s.threads|
  {
    var t := s.threads[p];
    || (t.pc.Spin? && t.slot < |s.flags| && !s.flags[t.slot])
    || ((t.pc.WaitA? || t.pc.WaitB?) && t.pc.k < |s.threads| && s.threads[t.pc.k].ctr < t.ctr)
  }

  ghost function Counters(s: State): seq<nat> {
    seq(|s.threads|, k requires 0 <= k < |s.threads| => s.threads[k].ctr)
  }

  // ------------------------------------------------------------ nearer with every step

  /** The parts of a lock and unlock, or of the start of a round, that are left. */
  function Stage(pc: Pc): nat {
    match pc
    case Idle => 0
    case Open => 1
    case Close => 2
    case Critical => 3
    case Spin => 4
    case WaitB(_) => 1
    case CountB => 2
    case OpenFirst(_) => 3
    case LoadTail => 4
    case InitFlag(_) => 5
    case InitTail => 6
    case WaitA(_) => 7
    case CountA => 8
  }

  /** The steps left of a loop over all threads, if there is nothing to wait for. */
  function LoopLeft(pc: Pc, n: nat): nat {
    match pc
    case WaitA(k) => if k < n then n - k else 0
    case WaitB(k) => if k < n then n - k else 0
    case InitFlag(i) => if i < n then n - i else 0
    case _ => 0
  }

  predicate Nearer(s: State, s': State, p: nat)
    requires p < |s.threads| == |s'.threads|
  {
    var pc, pc' := s.threads[p].pc, s'.threads[p].pc;
    Stage(pc') < Stage(pc) || (Stage(pc') == Stage(pc) && LoopLeft(pc', |s.threads|) < LoopLeft(pc, |s.threads|))
  }

  /** Every step of a thread that does not have to wait brings it nearer to the end of what it is doing ... */
  lemma FreeStepAdvances(s: State, s': State, p: nat, a: Action)
    requires Inv(s) && Step(s, s', p, a) && p < |s.threads| && !s.threads[p].pc.Idle? && !Blocked(s, p)
    ensures |s'.threads| == |s.threads| && Nearer(s, s', p)
  {
    assert |s.flags| == |s.threads|;
    hide Inv;
  }

  /** ... and a step of one that has to wait changes nothing. */
  lemma BlockedStepSpins(s: State, s': State, p: nat, a: Action)
    requires Step(s, s', p, a) && p < |s.threads| && Blocked(s, p)
    ensures s' == s
  {
    assert s.threads[p := s.threads[p]] == s.threads;
  }

  lemma LockHasStep(s: State, p: nat) returns (s': State, a: Action)
    requires |s.flags| == |s.threads| && p < |s.threads| && Running(s.threads[p].pc)
    requires Holding(s.threads[p].pc) ==> s.threads[p].slot < |s.threads|
    ensures Step(s, s', p, a)
  {
    var t, n := s.threads[p], |s.threads|;
    match t.pc
    case Idle =>
      a := TakeTicket;
      s' := s.(tail := s.tail + 1, order := s.order + [p],
               threads := s.threads[p := t.(pc := Spin, ticket := s.tail, slot := s.tail % n)]);
    case Spin => a := PollFlag; s' := s.(threads := Goto(s, p, if s.flags[t.slot] then Critical else Spin));
    case Critical => a := Leave; s' := s.(threads := Goto(s, p, Close));
    case Close => a := CloseSlot; s' := s.(flags := s.flags[t.slot := false], threads := Goto(s, p, Open));
    case Open =>
      a := OpenNext;
      s' := s.(flags := s.flags[(t.slot + 1) % n := true], served := s.served + 1, threads := Goto(s, p, Idle));
  }

  lemma RoundHasStep(s: State, p: nat) returns (s': State, a: Action)
    requires |s.flags| == |s.threads| && p < |s.threads| && !Running(s.threads[p].pc)
    requires s.threads[p].pc.OpenFirst? ==> s.threads[p].pc.i == 0
    ensures Step(s, s', p, a)
  {
    var t, pc, n := s.threads[p], s.threads[p].pc, |s.threads|;
    match pc
    case CountA => a := Count; s' := s.(threads := s.threads[p := t.(pc := WaitA(0), ctr := t.ctr + 1)]);
    case CountB => a := Count; s' := s.(threads := s.threads[p := t.(pc := WaitB(0), ctr := t.ctr + 1)]);
    case WaitA(k) =>
      a := Poll;
      s' := s.(threads := Goto(s, p, if k >= n then (if p == 0 then InitTail else CountB)
                                     else if CtrOf(s, k) < t.ctr then pc else WaitA(k + 1)));
    case WaitB(k) =>
      a := Poll;
      s' := s.(threads := Goto(s, p, if k >= n then Idle else if CtrOf(s, k) < t.ctr then pc else WaitB(k + 1)));
    case InitTail => a := ClearTail; s' := s.(tail := 0, threads := Goto(s, p, InitFlag(0)));
    case InitFlag(i) =>
      a := ClearFlag;
      s' := if i < n then s.(flags := s.flags[i := false], threads := Goto(s, p, InitFlag(i + 1)))
            else s.(threads := Goto(s, p, LoadTail));
    case LoadTail => a := ReadTail; s' := s.(threads := Goto(s, p, OpenFirst(s.tail)));
    case OpenFirst(i) =>
      a := SetFirst;
      s' := s.(flags := s.flags[i := true], order := [], served := 0, threads := Goto(s, p, CountB));
  }

  lemma SlotInRange(s: State, p: nat)
    requires Inv(s) && p < |s.threads|
    ensures |s.flags| == |s.threads| && (Holding(s.threads[p].pc) ==> s.threads[p].slot < |s.threads|)
    ensures s.threads[p].pc.OpenFirst? ==> s.threads[p].pc.i == 0
  {
    assert BarrierOk(s, p, p);
    if Holding(s.threads[p].pc) {
      RunningLive(s, p);
      assert HolderOk(s, p);
    }
  }

  /** Every thread has a step. */
  lemma HasStep(s: State, p: nat) returns (s': State, a: Action)
    requires Inv(s) && p < |s.threads|
    ensures Step(s, s', p, a)
  {
    hide Inv;
    SlotInRange(s, p);
    if Running(s.threads[p].pc) {
      s', a := LockHasStep(s, p);
    } else {
      s', a := RoundHasStep(s, p);
    }
  }

  /** A thread in no call may lock, or go on to the next round. */
  lemma CallsAccepted(s: State, p: nat) returns (lock: State, next: State)
    requires p < |s.threads| && s.threads[p].pc.Idle?
    ensures Step(s, lock, p, TakeTicket) && lock.threads[p].pc.Spin?
    ensures Step(s, next, p, NextExec) && next.threads[p].pc.CountA?
  {
    lock := s.(tail := s.tail + 1, order := s.order + [p],
               threads := s.threads[p := s.threads[p].(pc := Spin, ticket := s.tail, slot := s.tail % |s.threads|)]);
    next := s.(threads := Goto(s, p, CountA));
  }

  // ------------------------------------------------------------ somebody does not have to wait

  lemma HolderGoes(s: State, p: nat) returns (q: nat)
    requires Inv(s) && p < |s.threads| && Holding(s.threads[p].pc)
    ensures q < |s.threads| && Holding(s.threads[q].pc) && !Blocked(s, q)
  {
    RunningLive(s, p);
    assert HolderOk(s, p);
    assert TicketOk(s, s.served);
    q := s.order[s.served];
    assert HolderOk(s, q);
  }

  lemma LowestGoes(s: State) returns (q: nat)
    requires |s.threads| > 0 && forall p | 0 <= p < |s.threads| :: !Holding(s.threads[p].pc)
    ensures q < |s.threads| && !Blocked(s, q)
  {
    q := Lowest(Counters(s));
    assert forall k | 0 <= k < |s.threads| :: Counters(s)[k] == s.threads[k].ctr;
  }

  /** In every reachable state some thread has a step that brings it nearer, or begins something new; if a
      thread is in `lock` or `unlock`, one of those does. */
  lemma SomeoneGoes(r: seq<State>, who: seq<nat>, acts: seq<Action>, i: nat) returns (q: nat, s': State, a: Action)
    requires IsRun(r, who, acts) && i < |r| && |r[0].threads| > 0
    ensures q < |r[i].threads| == |s'.threads| && Step(r[i], s', q, a)
    ensures r[i].threads[q].pc.Idle? || Nearer(r[i], s', q)
    ensures (exists p | 0 <= p < |r[i].threads| :: Holding(r[i].threads[p].pc)) ==> Holding(r[i].threads[q].pc)
  {
    var s := r[i];
    RunInv(r, who, acts, i);
    assert |s.threads| > 0;
    hide IsRun, Inv, Step, Nearer, Blocked;
    if p :| 0 <= p < |s.threads| && Holding(s.threads[p].pc) {
      q := HolderGoes(s, p);
    } else {
      q := LowestGoes(s);
    }
    s', a := HasStep(s, q);
    StepMoves(s, s', q, a);
    if !s.threads[q].pc.Idle? {
      FreeStepAdvances(s, s', q, a);
    }
  }
}
