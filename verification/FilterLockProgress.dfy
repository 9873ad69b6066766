/** The filter lock never deadlocks: with every step a thread that does not have to wait gets nearer to the
    critical section, or to the end of its reset, and there always is such a thread. */
module FilterLockProgress {
  import opened FilterLock
  import opened SetFacts

  predicate Waits(pc: Pc) { pc.Scan? || pc.CheckVictim? }

  /** Somebody else is at the level of `p` or higher. */
  ghost predicate Rivalled(s: State, p: nat)
    requires p < |s.threads| && Waits(s.threads[p].pc)
  {
    exists k | 0 <= k < |s.threads| :: k != p && s.threads[k].level >= s.threads[p].pc.l
  }

  /** The condition on which `p` waits will hold until some other thread moves. */
  ghost predicate Blocked(s: State, p: nat)
    requires p < |s.threads|
  {
    var pc := s.threads[p].pc;
    || (Waits(pc) && Rivalled(s, p) && VictimOf(s, pc.l) == p)
    || (pc.Wait? && pc.k < |s.threads| && s.threads[pc.k].ctr < s.threads[p].ctr)
  }

  // ------------------------------------------------------------ nearer with every step

  /** The levels left, or the parts of the reset. */
  function Stage(pc: Pc, n: nat): int {
    match pc
    case Idle => 0
    case Critical => 1
    case SetLevel(l) => 1 + n - l
    case SetVictim(l) => 1 + n - l
    case Scan(l, _) => 1 + n - l
    case CheckVictim(l) => 1 + n - l
    case Wait(_) => 1
    case Arrive => 2
    case ResetVictim => 3
    case ResetLevel => 4
  }

  /** The steps left within the stage, if there is nothing to wait for. */
  ghost function Within(s: State, p: nat): nat
    requires p < |s.threads|
  {
    var n := |s.threads|;
    match s.threads[p].pc
    case SetLevel(_) => n + 5
    case SetVictim(_) => n + 4
    case CheckVictim(l) => if VictimOf(s, l) == p then n + 3 else 1
    case Scan(_, k) => 2 + if k < n then n - k else 0
    case Wait(k) => 1 + if k < n then n - k else 0
    case _ => 0
  }

  ghost predicate Nearer(s: State, s': State, p: nat)
    requires p < |s.threads| == |s'.threads|
  {
    var before, after := Stage(s.threads[p].pc, |s.threads|), Stage(s'.threads[p].pc, |s.threads|);
    0 <= after < before || (after == before && Within(s', p) < Within(s, p))
  }

  /** Every step of a thread that does not have to wait brings it nearer to the end of what it is doing ... */
  lemma FreeStepAdvances(s: State, s': State, p: nat, a: Action)
    requires Inv(s) && Step(s, s', p, a) && !s.threads[p].pc.Idle? && !Blocked(s, p)
    ensures |s'.threads| == |s.threads| && Nearer(s, s', p)
  {
    assert PcOk(s, p);
    hide Inv;
  }

  /** ... and a step of one that may have to wait does too, or it changes nothing but the place in the loop. */
  lemma BlockedStepSpins(s: State, s': State, p: nat, a: Action)
    requires Inv(s) && Step(s, s', p, a) && Blocked(s, p)
    ensures |s'.threads| == |s.threads|
    ensures || Nearer(s, s', p)
            || (s'.victims == s.victims && Blocked(s', p)
                && forall q | 0 <= q < |s.threads| ::
                     s'.threads[q].level == s.threads[q].level && s'.threads[q].ctr == s.threads[q].ctr)
  {
    assert PcOk(s, p);
    hide Inv;
    if Waits(s.threads[p].pc) && Waits(s'.threads[p].pc) {
      var k :| 0 <= k < |s.threads| && k != p && s.threads[k].level >= s.threads[p].pc.l;
      assert s'.threads[k].level == s.threads[k].level;
    }
  }

  /** Every thread has a step. */
  lemma HasStep(s: State, p: nat) returns (s': State, a: Action)
    requires Inv(s) && p < |s.threads|
    ensures Step(s, s', p, a)
  {
    assert PcOk(s, p);
    hide Inv;
    var t, pc := s.threads[p], s.threads[p].pc;
    match pc
    case ResetLevel => a := ClearLevel; s' := s.(threads := s.threads[p := t.(pc := ResetVictim, level := 0)]);
    case ResetVictim => a := ClearVictim; s' := s.(victims := s.victims[p := 0], threads := Goto(s, p, Arrive));
    case Arrive => a := Count; s' := s.(threads := s.threads[p := t.(pc := Wait(0), ctr := t.ctr + 1)]);
    case Wait(k) =>
      a := Poll;
      s' := s.(threads := Goto(s, p, if k >= |s.threads| then Idle
                                     else if CtrOf(s, k) < t.ctr then pc
                                     else Wait(k + 1)));
    case Idle => a := Lock; s' := s.(threads := Goto(s, p, Enter(s, 0)));
    case SetLevel(l) => a := StoreLevel; s' := s.(threads := s.threads[p := t.(pc := SetVictim(l), level := l)]);
    case SetVictim(l) =>
      a := StoreVictim;
      s' := s.(victims := s.victims[l := p], threads := Goto(s, p, Scan(l, 0)));
    case Scan(l, k) =>
      a := Look;
      s' := s.(threads := Goto(s, p, if k >= |s.threads| then Enter(s, l)
                                     else if k != p && LevelOf(s, k) >= l then CheckVictim(l)
                                     else Scan(l, k + 1)));
    case CheckVictim(l) =>
      a := LoadVictim;
      s' := s.(threads := Goto(s, p, if VictimOf(s, l) == p then Scan(l, 0) else Enter(s, l)));
    case Critical => a := Unlock; s' := s.(threads := s.threads[p := t.(pc := Idle, level := 0)]);
  }

  /** A thread in no call may lock, or go on to the next execution. */
  lemma CallsAccepted(s: State, p: nat) returns (lock: State, next: State)
    requires Inv(s) && p < |s.threads| && s.threads[p].pc.Idle?
    ensures Step(s, lock, p, Lock) && Competing(lock.threads[p].pc)
    ensures Step(s, next, p, NextExec) && next.threads[p].pc.ResetLevel?
  {
    lock := s.(threads := Goto(s, p, Enter(s, 0)));
    next := s.(threads := s.threads[p := s.threads[p].(pc := ResetLevel, round := s.threads[p].round + 1)]);
    hide Inv;
  }

  // ------------------------------------------------------------ somebody does not have to wait

  /** Of the competing threads one at the highest level goes on. */
  lemma {:induction false} CompetitorGoes(s: State, p: nat) returns (q: nat)
    requires Inv(s) && p < |s.threads| && Competing(s.threads[p].pc)
    ensures q < |s.threads| && Competing(s.threads[q].pc) && !Blocked(s, q)
    decreases |s.threads| - s.threads[p].level
  {
    q := p;
    assert PcOk(s, p);
    if Blocked(s, p) {
      var l := s.threads[p].pc.l;
      var k :| 0 <= k < |s.threads| && k != p && s.threads[k].level >= l;
      assert PcOk(s, k) && BarrierOk(s, p, k);
      if s.threads[k].level > l {
        hide PcOk, BarrierOk;
        q := CompetitorGoes(s, k);
      } else {
        q := k;
      }
    }
  }

  ghost function Counters(s: State): seq<nat> {
    seq(|s.threads|, k requires 0 <= k < |s.threads| => s.threads[k].ctr)
  }

  /** In every reachable state some thread has a step that brings it nearer, or begins something new; if a
      thread competes for the lock, one of those does. */
  lemma SomeoneGoes(r: seq<State>, who: seq<nat>, acts: seq<Action>, i: nat) returns (q: nat, s': State, a: Action)
    requires IsRun(r, who, acts) && i < |r| && |r[i].threads| > 0
    ensures q < |r[i].threads| == |s'.threads| && Step(r[i], s', q, a)
    ensures r[i].threads[q].pc.Idle? || Nearer(r[i], s', q)
    ensures (exists p | 0 <= p < |r[i].threads| :: Competing(r[i].threads[p].pc)) ==> Competing(r[i].threads[q].pc)
  {
    hide Inv, Step, Nearer, Blocked;
    RunInv(r, who, acts, i);
    hide IsRun;
    if p :| 0 <= p < |r[i].threads| && Competing(r[i].threads[p].pc) {
      q := CompetitorGoes(r[i], p);
    } else {
      q := LowestGoes(r[i]);
    }
    s', a := HasStep(r[i], q);
    StepMoves(r[i], s', q, a);
    if !r[i].threads[q].pc.Idle? {
      FreeStepAdvances(r[i], s', q, a);
    }
  }

  lemma LowestGoes(s: State) returns (q: nat)
    requires |s.threads| > 0 && forall p | 0 <= p < |s.threads| :: !Competing(s.threads[p].pc)
    ensures q < |s.threads| && !Blocked(s, q)
  {
    q := Lowest(Counters(s));
    assert forall k | 0 <= k < |s.threads| :: Counters(s)[k] == s.threads[k].ctr;
  }

  lemma StepMoves(s: State, s': State, p: nat, a: Action)
    requires Step(s, s', p, a)
    ensures |s'.threads| == |s.threads|
  {
  }
}
