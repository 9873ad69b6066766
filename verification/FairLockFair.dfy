/** Fairness and progress of the fair lock. */
module FairLockFair {
  import opened FairLock

  /** Past the doorway and not yet out of the fair section. */
  predicate Settled(pc: Pc) { InLoop(pc) || InFair(pc) }

  /** Thread `p` is past the doorway of one and the same round in all states from `d` to `i`. */
  ghost predicate Stays(r: seq<State>, p: nat, d: nat, i: nat) {
    d <= i < |r| && forall k | d <= k <= i :: p < |r[k].threads| && Settled(r[k].threads[p].pc)
  }

  /** While `p` stays its value stays, and `group` does not come back to it. */
  lemma StayStep(s: State, s': State, m: nat, a: Action, p: nat)
    requires Inv(s) && Step(s, s', m, a) && p < |s.threads|
    requires p < |s'.threads| && Settled(s.threads[p].pc) && Settled(s'.threads[p].pc)
    ensures s'.threads[p].pc.v == s.threads[p].pc.v
    ensures s.group != s.threads[p].pc.v ==> s'.group == s.group
  {
    assert PcOk(s, p) && PcOk(s, m);
    if s'.group != s.group {
      FlipIsSafe(s, s', m, a, p);
    }
    hide Inv;
  }

  /** A thread with the other value than `group` is not in the fair section while `p` stays there: the one
      that waits with the value of `group` has not passed those that carry the other. */
  lemma BlockedBy(s: State, p: nat, q: nat)
    requires Inv(s) && p < |s.threads| && q < |s.threads| && Settled(s.threads[p].pc)
    requires s.group != s.threads[p].pc.v && Carries(s.threads[q].pc, s.group)
    ensures !InFair(s.threads[q].pc)
  {
    assert PcOk(s, p) && PcOk(s, q) && PairOk(s, q, p);
  }

  /** Of a round of `q` begun while `p` stays: it carries the value of `p`, or `group` has turned. */
  ghost predicate BegunAfter(s: State, p: nat, q: nat) {
    && p < |s.threads| && q < |s.threads| && Settled(s.threads[p].pc)
    && (Carries(s.threads[q].pc, 1 - s.threads[p].pc.v) ==> s.group == 1 - s.threads[p].pc.v)
  }

  lemma BegunStep(s: State, s': State, m: nat, a: Action, p: nat, q: nat)
    requires Inv(s) && Step(s, s', m, a) && BegunAfter(s, p, q)
    requires p < |s'.threads| && Settled(s'.threads[p].pc)
    ensures BegunAfter(s', p, q) && s'.threads[p].pc.v == s.threads[p].pc.v
  {
    assert PcOk(s, p) && PcOk(s, q);
    StepInv(s, s', m, a);
    StayStep(s, s', m, a, p);
    hide Inv;
  }

  /** When such a round completes, `group` has turned away from the value of `p`. */
  lemma RoundTurns(s: State, s': State, q: nat, p: nat)
    requires Inv(s) && Step(s, s', q, StoreGroup) && BegunAfter(s, p, q)
    requires p < |s'.threads| && Settled(s'.threads[p].pc)
    ensures s'.group == 1 - s.threads[p].pc.v && s'.threads[p].pc.v == s.threads[p].pc.v
  {
    StayStep(s, s', q, StoreGroup, p);
    assert PcOk(s, p) && PcOk(s, q);
    if s.group != s.threads[p].pc.v && Carries(s.threads[q].pc, s.group) {
      BlockedBy(s, p, q);
    }
  }

  lemma {:induction false} BegunRun(r: seq<State>, who: seq<nat>, acts: seq<Action>, p: nat, q: nat, b: nat, i: nat)
    requires IsRun(r, who, acts) && b < i && Stays(r, p, b, i) && q < |r[b].threads|
    requires who[b] == q && acts[b].Begin?
    ensures BegunAfter(r[i], p, q)
    decreases i
  {
    RunInv(r, who, acts, i - 1);
    assert Step(r[i - 1], r[i], who[i - 1], acts[i - 1]);
    if i - 1 == b {
      hide Inv, IsRun;
    } else {
      BegunRun(r, who, acts, p, q, b, i - 1);
      hide Inv, Step, IsRun;
      BegunStep(r[i - 1], r[i], who[i - 1], acts[i - 1], p, q);
    }
  }

  /** Once `group` has turned away from the value of `p` it stays so until `p` leaves. */
  lemma {:induction false} TurnedRun(r: seq<State>, who: seq<nat>, acts: seq<Action>, p: nat, e: nat, i: nat)
    requires IsRun(r, who, acts) && Stays(r, p, e, i) && r[e].group != r[e].threads[p].pc.v
    ensures r[i].group == r[e].group != r[i].threads[p].pc.v == r[e].threads[p].pc.v
    decreases i
  {
    if e < i {
      TurnedRun(r, who, acts, p, e, i - 1);
      RunInv(r, who, acts, i - 1);
      assert Step(r[i - 1], r[i], who[i - 1], acts[i - 1]);
      hide Inv, Step, IsRun;
      StayStep(r[i - 1], r[i], who[i - 1], acts[i - 1], p);
    }
  }

  /** `group` has turned, and `q` has not read it before that. */
  ghost predicate BegunLate(s: State, p: nat, q: nat) {
    && p < |s.threads| && q < |s.threads| && Settled(s.threads[p].pc)
    && s.group != s.threads[p].pc.v && !Carries(s.threads[q].pc, s.threads[p].pc.v)
  }

  lemma LateStep(s: State, s': State, m: nat, a: Action, p: nat, q: nat)
    requires Inv(s) && Step(s, s', m, a) && BegunLate(s, p, q)
    requires p < |s'.threads| && Settled(s'.threads[p].pc)
    ensures BegunLate(s', p, q)
  {
    StepInv(s, s', m, a);
    StayStep(s, s', m, a, p);
    hide Inv;
  }

  lemma {:induction false} LateRun(r: seq<State>, who: seq<nat>, acts: seq<Action>, p: nat, q: nat, b: nat, i: nat)
    requires IsRun(r, who, acts) && b < i && Stays(r, p, b, i) && q < |r[b].threads|
    requires who[b] == q && acts[b].Begin? && r[b].group != r[b].threads[p].pc.v
    ensures BegunLate(r[i], p, q)
    decreases i
  {
    RunInv(r, who, acts, i - 1);
    assert Step(r[i - 1], r[i], who[i - 1], acts[i - 1]);
    if i - 1 == b {
      hide Inv, IsRun;
    } else {
      LateRun(r, who, acts, p, q, b, i - 1);
      hide Inv, Step, IsRun;
      LateStep(r[i - 1], r[i], who[i - 1], acts[i - 1], p, q);
    }
  }

  /** Such a round waits for `p`. */
  lemma LateWaits(s: State, p: nat, q: nat)
    requires Inv(s) && BegunLate(s, p, q)
    ensures !InFair(s.threads[q].pc)
  {
    assert PcOk(s, p) && PcOk(s, q);
    if Carries(s.threads[q].pc, s.group) {
      BlockedBy(s, p, q);
    }
  }

  /** From the moment `p` has finished its doorway until it leaves its fair section, no other thread gets
      into a second fair section of rounds begun after that moment: having begun one round at `b` and
      completed a fair section at `e`, and begun another round at `b2`, thread `q` has to wait. */
  lemma OvertakesAtMostOnce(r: seq<State>, who: seq<nat>, acts: seq<Action>,
                            p: nat, q: nat, b: nat, e: nat, b2: nat, i: nat)
    requires IsRun(r, who, acts) && b < e < b2 < i && Stays(r, p, b, i) && q < |r[i].threads|
    requires who[b] == q && acts[b].Begin?
    requires who[e] == q && acts[e].StoreGroup?
    requires who[b2] == q && acts[b2].Begin?
    ensures !InFair(r[i].threads[q].pc)
  {
    hide Inv, Step;
    RunInv(r, who, acts, i);
    RunInv(r, who, acts, b);
    RunInv(r, who, acts, e);
    RunInv(r, who, acts, b2);
    assert Step(r[e], r[e + 1], who[e], acts[e]);
    assert Stays(r, p, b, e) && Stays(r, p, e + 1, b2) && Stays(r, p, b2, i);
    BegunRun(r, who, acts, p, q, b, e);
    RoundTurns(r[e], r[e + 1], q, p);
    TurnedRun(r, who, acts, p, e + 1, b2);
    LateRun(r, who, acts, p, q, b2, i);
    hide IsRun, Stays;
    LateWaits(r[i], p, q);
  }

  // ------------------------------------------------------------ progress

  /** The next step of `p` only spins, and will until some other thread moves. */
  ghost predicate Blocked(s: State, p: nat)
    requires p < |s.threads|
  {
    match s.threads[p].pc
    case Await(v, j) => StateOf(s, j) == 2
    case SpinState(v, j) => StateOf(s, j) == 1 - v && s.group == v
    case SpinGroup(v, j) => StateOf(s, j) == 1 - v && s.group == v
    case LockSpin(v) => s.locked
    case LockTry(v) => s.locked
    case _ => false
  }

  predicate Spins(pc: Pc) { pc.SpinState? || pc.SpinGroup? }

  /** How far `p` still has to go in its round. */
  ghost function Rank(s: State, p: nat): int
    requires p < |s.threads|
  {
    var n := |s.threads|;
    match s.threads[p].pc
    case Out => 0
    case Leave(v) => 1
    case Flip(v) => 2
    case Critical(v) => 3
    case LockTry(v) => 4
    case LockSpin(v) => 5
    case SpinState(v, j) => 6 + 5 * (n - 1 - j) + if s.group == v then 0 else 1
    case SpinGroup(v, j) => 6 + 5 * (n - 1 - j) + if s.group == v then 1 else 0
    case Compare(v, j) => 8 + 5 * (n - 1 - j)
    case Await(v, j) => 9 + 5 * (n - 1 - j)
    case Test(v, j) => 10 + 5 * (n - 1 - j)
    case Choose(v) => 11 + 5 * n
    case ReadGroup => 12 + 5 * n
  }

  /** A step of a thread that is not blocked brings it nearer to the end of its round ... */
  lemma FreeStepAdvances(s: State, s': State, p: nat, a: Action)
    requires Inv(s) && Step(s, s', p, a) && !s.threads[p].pc.Out? && !Blocked(s, p)
    ensures p < |s'.threads| && 0 <= Rank(s', p) < Rank(s, p)
  {
    assert PcOk(s, p);
    hide Inv;
  }

  /** ... and a step of a blocked thread changes nothing but its place in the same waiting loop. */
  lemma BlockedStepSpins(s: State, s': State, p: nat, a: Action)
    requires Inv(s) && Step(s, s', p, a) && Blocked(s, p)
    ensures p < |s'.threads| && s'.group == s.group && s'.locked == s.locked && Blocked(s', p)
    ensures forall q | 0 <= q < |s.threads| :: s'.threads[q].state == s.threads[q].state
  {
    assert PcOk(s, p);
    hide Inv;
  }

  /** A thread that carries the other value than `group` is never blocked at another group. */
  lemma OtherGroupGoes(s: State, p: nat)
    requires Inv(s) && p < |s.threads| && Spins(s.threads[p].pc) && Carries(s.threads[p].pc, 1 - s.group)
    ensures !Blocked(s, p)
  {
  }

  /** Whoever is blocked waits for a thread that is under way. */
  lemma BlockedByActive(s: State, p: nat) returns (q: nat)
    requires Inv(s) && p < |s.threads| && Blocked(s, p)
    ensures q < |s.threads| && !s.threads[q].pc.Out?
    ensures s.threads[p].pc.Await? ==> s.threads[q].pc.ReadGroup? || s.threads[q].pc.Choose?
    ensures Spins(s.threads[p].pc) ==> Carries(s.threads[q].pc, 1 - s.group) && !s.threads[q].pc.Choose?
    ensures InFair(s.threads[p].pc) ==> s.threads[q].pc.Critical?
  {
    assert PcOk(s, p);
    if InFair(s.threads[p].pc) {
      q :| q < |s.threads| && s.threads[q].pc.Critical?;
    } else {
      q := s.threads[p].pc.j;
      assert PcOk(s, q);
    }
    hide Inv, LockOk;
  }

  /** As long as a thread is active, some active thread has a step that does not spin. */
  lemma SomeoneGoes(s: State, p: nat) returns (q: nat)
    requires Inv(s) && p < |s.threads| && !s.threads[p].pc.Out?
    ensures q < |s.threads| && !s.threads[q].pc.Out? && !Blocked(s, q)
  {
    hide Inv, PcOk;
    q := p;
    if Blocked(s, q) && Spins(s.threads[q].pc) {
      q := BlockedByActive(s, q);
    }
    if Blocked(s, q) && Spins(s.threads[q].pc) {
      OtherGroupGoes(s, q);
    }
    if Blocked(s, q) {
      q := BlockedByActive(s, q);
    }
  }

  lemma LoopHasStep(s: State, p: nat) returns (s': State, a: Action)
    requires p < |s.threads| && InLoop(s.threads[p].pc)
    ensures Step(s, s', p, a)
  {
    var pc := s.threads[p].pc;
    match pc
    case Test(v, j) =>
      a := LoopTest;
      s' := s.(threads := Goto(s, p, if s.group != v then LockSpin(v) else Await(v, j)));
    case Await(v, j) =>
      a := AwaitDoor;
      s' := s.(threads := Goto(s, p, if StateOf(s, j) == 2 then pc else Compare(v, j)));
    case Compare(v, j) =>
      a := CompareGroups;
      s' := s.(threads := Goto(s, p, if StateOf(s, j) == 1 - v then SpinState(v, j) else Next(s, v, j)));
    case SpinState(v, j) =>
      a := SpinOnState;
      s' := s.(threads := Goto(s, p, if StateOf(s, j) == 1 - v then SpinGroup(v, j) else Next(s, v, j)));
    case SpinGroup(v, j) =>
      a := SpinOnGroup;
      s' := s.(threads := Goto(s, p, if s.group == v then SpinState(v, j) else Next(s, v, j)));
  }

  /** Every thread has a step; one that is out may begin. */
  lemma HasStep(s: State, p: nat) returns (s': State, a: Action)
    requires p < |s.threads|
    ensures Step(s, s', p, a) && (s.threads[p].pc.Out? ==> a == Begin)
  {
    var pc := s.threads[p].pc;
    if InLoop(pc) {
      s', a := LoopHasStep(s, p);
    } else {
      match pc
      case Out => a := Begin; s' := s.(threads := s.threads[p := Thread(ReadGroup, 2)]);
      case ReadGroup => a := LoadGroup; s' := s.(threads := Goto(s, p, Choose(s.group)));
      case Choose(v) => a := StoreChoice; s' := s.(threads := s.threads[p := Thread(Test(v, 0), v)]);
      case LockSpin(v) => a := LoadLocked; s' := s.(threads := Goto(s, p, if s.locked then pc else LockTry(v)));
      case LockTry(v) =>
        a := Exchange;
        s' := s.(locked := true, threads := Goto(s, p, if s.locked then LockSpin(v) else Critical(v)));
      case Critical(v) => a := Unlock; s' := s.(locked := false, threads := Goto(s, p, Flip(v)));
      case Flip(v) => a := StoreGroup; s' := s.(group := 1 - v, threads := Goto(s, p, Leave(v)));
      case Leave(v) => a := StoreInactive; s' := s.(threads := s.threads[p := Thread(Out, 3)]);
    }
  }

  /** As long as a thread is active, some active thread has a step that brings it nearer to the end of its round. */
  lemma Progress(r: seq<State>, who: seq<nat>, acts: seq<Action>, i: nat, p: nat)
    returns (q: nat, s': State, a: Action)
    requires IsRun(r, who, acts) && i < |r| && p < |r[i].threads| && !r[i].threads[p].pc.Out?
    ensures q < |r[i].threads| == |s'.threads| && !r[i].threads[q].pc.Out?
    ensures Step(r[i], s', q, a) && 0 <= Rank(s', q) < Rank(r[i], q)
  {
    hide Inv, Step, Rank, Blocked;
    RunInv(r, who, acts, i);
    q := SomeoneGoes(r[i], p);
    s', a := HasStep(r[i], q);
    FreeStepAdvances(r[i], s', q, a);
    SameCount(r[i], s', q, a);
  }

  // ------------------------------------------------------------ a thread whose turn it is

  /** No further along in the waiting loop than the head of index `j + 1`. */
  predicate NoFurther(pc: Pc, j: nat) { InLoop(pc) ==> pc.j == j || (pc.Test? && pc.j == j + 1) }

  lemma EnabledStep(s: State, s': State, m: nat, a: Action, p: nat, j: nat)
    requires Step(s, s', m, a) && p < |s.threads| && p < |s'.threads|
    requires Settled(s.threads[p].pc) && Settled(s'.threads[p].pc)
    requires s.group != s.threads[p].pc.v && NoFurther(s.threads[p].pc, j)
    ensures NoFurther(s'.threads[p].pc, j)
  {
  }

  /** Once `group` has turned away from the value of `p`, `p` waits for nobody further along: it is done at its present
      index, or breaks off at the head of the next. */
  lemma {:induction false} EnabledLooksNoFurther(r: seq<State>, who: seq<nat>, acts: seq<Action>,
                                                 p: nat, e: nat, i: nat)
    requires IsRun(r, who, acts) && Stays(r, p, e, i)
    requires r[e].group != r[e].threads[p].pc.v && InLoop(r[e].threads[p].pc)
    ensures NoFurther(r[i].threads[p].pc, r[e].threads[p].pc.j)
    decreases i
  {
    if e < i {
      hide Step;
      EnabledLooksNoFurther(r, who, acts, p, e, i - 1);
      TurnedRun(r, who, acts, p, e, i - 1);
      assert Step(r[i - 1], r[i], who[i - 1], acts[i - 1]);
      hide IsRun;
      EnabledStep(r[i - 1], r[i], who[i - 1], acts[i - 1], p, r[e].threads[p].pc.j);
    }
  }
}
