/** The filter lock of benchmark/blocking/FilterLock, together with the loop of its driver: each thread
    resets its level and one victim entry, waits at the barrier, and then locks and unlocks any number of
    times.  The reset of one thread overlaps with the locking of slower ones.

    Every access to a shared atomic is one step.  `round`, the number of resets begun, is a history
    variable. */
module FilterLock {
  datatype Pc =
    | ResetLevel
    | ResetVictim
    | Arrive
    | Wait(k: nat)                   // barrier_wait, at index k
    | Idle
    | SetLevel(l: nat)
    | SetVictim(l: nat)
    | Scan(l: nat, k: nat)           // higher_or_equal, at index k
    | CheckVictim(l: nat)
    | Critical

  datatype Thread = Thread(pc: Pc, level: int, ctr: nat, round: nat)

  datatype State = State(threads: seq<Thread>, victims: seq<int>)

  datatype Action =
    | ClearLevel | ClearVictim | Count | Poll | NextExec | Lock | StoreLevel | StoreVictim | Look | LoadVictim | Unlock

  /** Memory is not initialised before the first reset. */
  ghost predicate Init(s: State) {
    && |s.victims| == |s.threads|
    && forall p | 0 <= p < |s.threads| ::
         s.threads[p].pc.ResetLevel? && s.threads[p].ctr == 0 && s.threads[p].round == 1
  }

  /** The next level, or the critical section after the last. */
  function Enter(s: State, l: nat): Pc { if l + 1 < |s.threads| then SetLevel(l + 1) else Critical }

  function Goto(s: State, p: nat, pc: Pc): seq<Thread>
    requires p < |s.threads|
  {
    s.threads[p := s.threads[p].(pc := pc)]
  }

  function LevelOf(s: State, k: nat): int { if k < |s.threads| then s.threads[k].level else 0 }

  function VictimOf(s: State, l: nat): int { if l < |s.victims| then s.victims[l] else -1 }

  function CtrOf(s: State, k: nat): nat { if k < |s.threads| then s.threads[k].ctr else 0 }

  ghost predicate Step(s: State, s': State, p: nat, a: Action) {
    && p < |s.threads| == |s.victims|
    && var t, pc := s.threads[p], s.threads[p].pc;
       match a
       case ClearLevel => pc.ResetLevel? && s' == s.(threads := s.threads[p := t.(pc := ResetVictim, level := 0)])
       case ClearVictim => pc.ResetVictim? && s' == s.(victims := s.victims[p := 0], threads := Goto(s, p, Arrive))
       case Count => pc.Arrive? && s' == s.(threads := s.threads[p := t.(pc := Wait(0), ctr := t.ctr + 1)])
       case Poll =>
         pc.Wait? && s' == s.(threads := Goto(s, p,
           if pc.k >= |s.threads| then Idle else if CtrOf(s, pc.k) < t.ctr then pc else Wait(pc.k + 1)))
       case NextExec => pc.Idle? && s' == s.(threads := s.threads[p := t.(pc := ResetLevel, round := t.round + 1)])
       case Lock => pc.Idle? && s' == s.(threads := Goto(s, p, Enter(s, 0)))
       case StoreLevel =>
         pc.SetLevel? && s' == s.(threads := s.threads[p := t.(pc := SetVictim(pc.l), level := pc.l)])
       case StoreVictim =>
         pc.SetVictim? && pc.l < |s.victims|
         && s' == s.(victims := s.victims[pc.l := p], threads := Goto(s, p, Scan(pc.l, 0)))
       case Look =>
         pc.Scan? && s' == s.(threads := Goto(s, p,
           if pc.k >= |s.threads| then Enter(s, pc.l)
           else if pc.k != p && LevelOf(s, pc.k) >= pc.l then CheckVictim(pc.l)
           else Scan(pc.l, pc.k + 1)))
       case LoadVictim =>
         pc.CheckVictim? && s' == s.(threads := Goto(s, p,
           if VictimOf(s, pc.l) == p then Scan(pc.l, 0) else Enter(s, pc.l)))
       case Unlock => pc.Critical? && s' == s.(threads := s.threads[p := t.(pc := Idle, level := 0)])
  }

  ghost predicate IsRun(r: seq<State>, who: seq<nat>, acts: seq<Action>) {
    && |r| > 0 && |who| == |acts| == |r| - 1
    && Init(r[0])
    && (forall i | 0 <= i < |who| :: Step(r[i], r[i + 1], who[i], acts[i]))
  }

  // ------------------------------------------------------------ invariant

  predicate Resetting(pc: Pc) { pc.ResetLevel? || pc.ResetVictim? || pc.Arrive? }

  predicate Competing(pc: Pc) { pc.SetLevel? || pc.SetVictim? || pc.Scan? || pc.CheckVictim? || pc.Critical? }

  /** The number of levels whose victim entry the thread has written in this call of `lock`. */
  function Written(pc: Pc, n: nat): int {
    match pc
    case SetLevel(l) => l - 1
    case SetVictim(l) => l - 1
    case Scan(l, _) => l
    case CheckVictim(l) => l
    case Critical => n - 1
    case _ => -1
  }

  /** The number of levels the thread is past. */
  function Cleared(pc: Pc, n: nat): int {
    match pc
    case SetLevel(l) => l - 1
    case SetVictim(l) => l - 1
    case Scan(l, _) => l - 1
    case CheckVictim(l) => l - 1
    case Critical => n - 1
    case _ => -1
  }

  ghost predicate PcOk(s: State, p: nat)
    requires p < |s.threads|
  {
    var t := s.threads[p];
    && t.round > 0 && t.ctr == (if Resetting(t.pc) then t.round - 1 else t.round)
    && match t.pc
       case ResetLevel => t.round > 1 ==> t.level == 0
       case SetLevel(l) => 1 <= l < |s.threads| && t.level == l - 1
       case SetVictim(l) => 1 <= l < |s.threads| && t.level == l
       case Scan(l, _) => 1 <= l < |s.threads| && t.level == l
       case CheckVictim(l) => 1 <= l < |s.threads| && t.level == l
       case Critical => t.level == |s.threads| - 1
       case _ => t.level == 0
  }

  /** What `p` has seen at the barrier: everybody it is past has arrived for its round. */
  ghost predicate BarrierOk(s: State, p: nat, k: nat)
    requires p < |s.threads| && k < |s.threads|
  {
    var t := s.threads[p];
    && s.threads[k].ctr + 1 >= t.round
    && (!Resetting(t.pc) && (t.pc.Wait? ==> k < t.pc.k) ==> s.threads[k].ctr >= t.round)
  }

  /** In the round of `w`, the entry of level `l` has not been reset again. */
  predicate Intact(s: State, l: nat, w: nat)
    requires l < |s.threads| && w < |s.threads|
  {
    s.threads[l].round == s.threads[w].round
  }

  /** A victim is not past its level while another thread competes there, and has not even looked past it. */
  ghost predicate VictimOk(s: State, l: nat, w: nat, k: nat)
    requires 1 <= l < |s.threads| && w < |s.threads| && k < |s.threads|
  {
    var n, pc := |s.threads|, s.threads[w].pc;
    && w != k && l <= Written(pc, n) && l <= Written(s.threads[k].pc, n) && Intact(s, l, w) && VictimOf(s, l) == w ==>
      l > Cleared(pc, n) && (pc.Scan? && pc.l == l ==> pc.k <= k)
  }

  /** As long as somebody competes at level `l`, the victim is one of them. */
  ghost predicate VictimIn(s: State, l: nat, w: nat)
    requires 1 <= l < |s.threads| && w < |s.threads|
  {
    l <= Written(s.threads[w].pc, |s.threads|) && Intact(s, l, w) ==>
      var v := VictimOf(s, l);
      0 <= v < |s.threads| && l <= Written(s.threads[v].pc, |s.threads|)
  }

  ghost predicate Inv(s: State) {
    && |s.victims| == |s.threads|
    && (forall p | 0 <= p < |s.threads| :: PcOk(s, p))
    && (forall p, k | 0 <= p < |s.threads| && 0 <= k < |s.threads| :: BarrierOk(s, p, k))
    && (forall l, w | 1 <= l < |s.threads| && 0 <= w < |s.threads| :: VictimIn(s, l, w))
    && (forall l, w, k | 1 <= l < |s.threads| && 0 <= w < |s.threads| && 0 <= k < |s.threads| :: VictimOk(s, l, w, k))
  }

  // ------------------------------------------------------------ every step keeps it

  ghost predicate Moves(s: State, s': State, p: nat) {
    && p < |s.threads| == |s'.threads| && |s.victims| == |s'.victims| == |s.threads|
    && forall q | 0 <= q < |s.threads| && q != p :: s'.threads[q] == s.threads[q]
  }

  lemma StepPc(s: State, s': State, p: nat, a: Action)
    requires Step(s, s', p, a) && PcOk(s, p)
    ensures Moves(s, s', p) && PcOk(s', p) && s'.threads[p].ctr >= s.threads[p].ctr
  {
  }

  lemma StepBarrier(s: State, s': State, p: nat, a: Action, q: nat, k: nat)
    requires Step(s, s', p, a) && q < |s.threads| && k < |s.threads|
    requires PcOk(s, p) && PcOk(s, q) && BarrierOk(s, q, k)
    ensures Moves(s, s', p) && BarrierOk(s', q, k)
  {
  }

  /** Competing threads are in the same round, and nobody is behind it. */
  lemma SameRound(s: State, w: nat, k: nat)
    requires w < |s.threads| && k < |s.threads| && PcOk(s, w) && PcOk(s, k)
    requires BarrierOk(s, w, k) && BarrierOk(s, k, w) && Competing(s.threads[w].pc)
    ensures s.threads[k].round >= s.threads[w].round
    ensures !(Resetting(s.threads[k].pc) && s.threads[k].round == s.threads[w].round)
    ensures Competing(s.threads[k].pc) ==> s.threads[k].round == s.threads[w].round
  {
  }

  /** A pair of which neither member moves. */
  lemma VictimApart(s: State, s': State, p: nat, a: Action, l: nat, w: nat, k: nat)
    requires Step(s, s', p, a) && 1 <= l < |s.threads| && w < |s.threads| && k < |s.threads|
    requires PcOk(s, p) && PcOk(s, w) && PcOk(s, k) && PcOk(s, l)
    requires BarrierOk(s, w, l) && VictimOk(s, l, w, k) && p != w && p != k
    ensures Moves(s, s', p) && VictimOk(s', l, w, k)
  {
  }

  /** The mover competes with the victim. */
  lemma VictimRival(s: State, s': State, p: nat, a: Action, l: nat, w: nat, k: nat)
    requires Step(s, s', p, a) && 1 <= l < |s.threads| && w < |s.threads| && k < |s.threads|
    requires PcOk(s, p) && PcOk(s, w) && PcOk(s, k) && PcOk(s, l)
    requires BarrierOk(s, w, l) && VictimOk(s, l, w, k) && p == k && p != w
    ensures Moves(s, s', p) && VictimOk(s', l, w, k)
  {
  }

  /** The mover is the victim. */
  lemma VictimMoves(s: State, s': State, p: nat, a: Action, l: nat, w: nat, k: nat)
    requires Step(s, s', p, a) && 1 <= l < |s.threads| && w < |s.threads| && k < |s.threads|
    requires PcOk(s, p) && PcOk(s, w) && PcOk(s, k) && PcOk(s, l)
    requires BarrierOk(s, w, l) && VictimOk(s, l, w, k) && p == w && p != k
    ensures Moves(s, s', p) && VictimOk(s', l, w, k)
  {
  }

  lemma StepVictim(s: State, s': State, p: nat, a: Action, l: nat, w: nat, k: nat)
    requires Step(s, s', p, a) && 1 <= l < |s.threads| && w < |s.threads| && k < |s.threads|
    requires PcOk(s, p) && PcOk(s, w) && PcOk(s, k) && PcOk(s, l)
    requires BarrierOk(s, w, l) && VictimOk(s, l, w, k)
    ensures Moves(s, s', p) && VictimOk(s', l, w, k)
  {
    StepPc(s, s', p, a);
    if w == k {
      hide Step;
    } else if p == w {
      VictimMoves(s, s', p, a, l, w, k);
      hide *;
    } else if p == k {
      VictimRival(s, s', p, a, l, w, k);
      hide *;
    } else {
      VictimApart(s, s', p, a, l, w, k);
      hide *;
    }
  }

  lemma VictimInMoves(s: State, s': State, p: nat, a: Action, l: nat, w: nat)
    requires Step(s, s', p, a) && 1 <= l < |s.threads| && w < |s.threads|
    requires PcOk(s, p) && PcOk(s, w) && PcOk(s, l) && p == w
    requires BarrierOk(s, w, l) && BarrierOk(s, w, p) && BarrierOk(s, p, w)
    requires VictimIn(s, l, w) && VictimOk(s, l, p, w)
    ensures Moves(s, s', p) && VictimIn(s', l, w)
  {
  }

  lemma VictimInApart(s: State, s': State, p: nat, a: Action, l: nat, w: nat)
    requires Step(s, s', p, a) && 1 <= l < |s.threads| && w < |s.threads|
    requires PcOk(s, p) && PcOk(s, w) && PcOk(s, l) && p != w
    requires BarrierOk(s, w, l) && BarrierOk(s, w, p) && BarrierOk(s, p, w)
    requires VictimIn(s, l, w) && VictimOk(s, l, p, w)
    ensures Moves(s, s', p) && VictimIn(s', l, w)
  {
  }

  lemma StepVictimIn(s: State, s': State, p: nat, a: Action, l: nat, w: nat)
    requires Step(s, s', p, a) && 1 <= l < |s.threads| && w < |s.threads|
    requires PcOk(s, p) && PcOk(s, w) && PcOk(s, l)
    requires BarrierOk(s, w, l) && BarrierOk(s, w, p) && BarrierOk(s, p, w)
    requires VictimIn(s, l, w) && VictimOk(s, l, p, w)
    ensures Moves(s, s', p) && VictimIn(s', l, w)
  {
    hide *;
    if p == w {
      VictimInMoves(s, s', p, a, l, w);
    } else {
      VictimInApart(s, s', p, a, l, w);
    }
  }

  lemma StepInv(s: State, s': State, p: nat, a: Action)
    requires Inv(s) && Step(s, s', p, a)
    ensures Inv(s') && Moves(s, s', p)
  {
    assert PcOk(s, p);
    StepPc(s, s', p, a);
    forall q | 0 <= q < |s.threads|
      ensures PcOk(s', q)
    {
      assert PcOk(s, q);
    }
    hide PcOk;
    forall q, k | 0 <= q < |s.threads| && 0 <= k < |s.threads|
      ensures BarrierOk(s', q, k)
    {
      StepBarrier(s, s', p, a, q, k);
    }
    hide BarrierOk;
    forall l, w | 1 <= l < |s.threads| && 0 <= w < |s.threads|
      ensures VictimIn(s', l, w)
    {
      StepVictimIn(s, s', p, a, l, w);
    }
    hide VictimIn;
    forall l, w, k | 1 <= l < |s.threads| && 0 <= w < |s.threads| && 0 <= k < |s.threads|
      ensures VictimOk(s', l, w, k)
    {
      StepVictim(s, s', p, a, l, w, k);
    }
    hide VictimOk, Step;
  }

  lemma InitInv(s: State)
    requires Init(s)
    ensures Inv(s)
  {
  }

  lemma {:induction false} RunInv(r: seq<State>, who: seq<nat>, acts: seq<Action>, i: nat)
    requires IsRun(r, who, acts) && i < |r|
    ensures Inv(r[i])
  {
    hide Step, Inv, Moves;
    if i == 0 {
      InitInv(r[0]);
    } else {
      RunInv(r, who, acts, i - 1);
      assert Step(r[i - 1], r[i], who[i - 1], acts[i - 1]);
      StepInv(r[i - 1], r[i], who[i - 1], acts[i - 1]);
    }
  }

  /** Any number of threads may start, with whatever is in memory. */
  lemma CanStart(levels: seq<int>, victims: seq<int>) returns (s: State)
    requires |levels| == |victims|
    ensures |s.threads| == |levels| && s.victims == victims && IsRun([s], [], [])
    ensures forall p | 0 <= p < |levels| :: s.threads[p].level == levels[p]
  {
    s := State(seq(|levels|, p requires 0 <= p < |levels| => Thread(ResetLevel, levels[p], 0, 1)), victims);
  }
}
