/** Every step of the array lock, its initialisation and the barrier keeps `Inv`, and what follows. */
module ArrayLockProof {
  import opened ArrayLock
  import opened ModArith
  import opened SetFacts

  // ------------------------------------------------------------ every step keeps it

  ghost predicate Moves(s: State, s': State, p: nat) {
    && p < |s.threads| == |s'.threads| && |s'.flags| == |s.flags|
    && forall q | 0 <= q < |s.threads| && q != p :: s'.threads[q] == s.threads[q]
  }

  lemma StepMoves(s: State, s': State, p: nat, a: Action)
    requires Step(s, s', p, a)
    ensures Moves(s, s', p)
  {
  }

  lemma BarrierMover(s: State, s': State, p: nat, a: Action, k: nat)
    requires Step(s, s', p, a) && k < |s.threads| == |s'.threads| && p < |s.threads| && k != p
    requires BarrierOk(s, p, k) && s'.threads[k] == s.threads[k]
    ensures BarrierOk(s', p, k)
  {
  }

  lemma BarrierSelf(s: State, s': State, p: nat, a: Action)
    requires Step(s, s', p, a) && |s'.threads| == |s.threads| && p < |s.threads| && BarrierOk(s, p, p)
    ensures BarrierOk(s', p, p) && s'.threads[p].ctr >= s.threads[p].ctr
  {
  }

  lemma StepBarrier(s: State, s': State, p: nat, a: Action, q: nat, k: nat)
    requires Step(s, s', p, a) && Moves(s, s', p) && q < |s.threads| && k < |s.threads|
    requires BarrierOk(s, q, k) && BarrierOk(s, p, p)
    ensures BarrierOk(s', q, k)
  {
    BarrierSelf(s, s', p, a);
    if q == p && k != p {
      BarrierMover(s, s', p, a, k);
    }
    hide Step;
  }

  /** While thread 0 initialises the lock, no thread is in `lock` or `unlock`, or may enter. */
  lemma InitAlone(s: State, p: nat)
    requires Inv(s) && Initialising(s.threads[0].pc) && p < |s.threads|
    ensures !Running(s.threads[p].pc)
  {
    assert BarrierOk(s, p, 0) && BarrierOk(s, 0, p);
  }

  /** Whoever may lock finds the lock initialised. */
  lemma RunningLive(s: State, p: nat)
    requires Inv(s) && p < |s.threads| && Running(s.threads[p].pc)
    ensures Live(s) && LockOk(s)
  {
    assert BarrierOk(s, p, 0) && BarrierOk(s, 0, p);
  }

  lemma InitStep(s: State, s': State, p: nat, a: Action)
    requires Inv(s) && Step(s, s', p, a)
    ensures Moves(s, s', p) && InitOk(s')
  {
    StepMoves(s, s', p, a);
    if p == 0 {
      assert BarrierOk(s, 0, 0);
      hide LockOk;
    } else if Initialising(s.threads[0].pc) {
      InitAlone(s, p);
      assert BarrierOk(s, p, p);
    } else {
      hide Inv, Step;
    }
  }

  /** A step outside the lock. */
  lemma OutsideStep(s: State, s': State, p: nat)
    requires LockOk(s) && Moves(s, s', p) && !Holding(s.threads[p].pc) && !Holding(s'.threads[p].pc)
    requires s' == s.(threads := s'.threads)
    ensures LockOk(s')
  {
    forall q | 0 <= q < |s'.threads|
      ensures HolderOk(s', q)
    {
      assert HolderOk(s, q);
    }
    forall i | 0 <= i < |s'.order|
      ensures TicketOk(s', i)
    {
      assert TicketOk(s, i);
    }
    assert s.served < |s.order| ==> TicketOk(s, s.served);
    hide HolderOk, TicketOk;
  }

  lemma FirstOpen(s: State, s': State, p: nat)
    requires Inv(s) && Step(s, s', p, SetFirst)
    ensures LockOk(s')
  {
    assert BarrierOk(s, p, p);
    forall q | 0 <= q < |s.threads|
      ensures HolderOk(s', q)
    {
      InitAlone(s, q);
    }
    hide BarrierOk, HolderOk;
  }

  /** The tickets out are held by different threads, so there are no more than threads. */
  lemma {:induction false} WindowSet(s: State, i: nat, xs: set<nat>)
    requires LockOk(s) && s.served <= i <= |s.order|
    requires forall x | x in xs :: x < |s.threads| && Holding(s.threads[x].pc) && s.threads[x].ticket < i
    ensures |xs| + |s.order| - i <= |s.threads|
    decreases |s.order| - i
  {
    if i == |s.order| {
      assert xs <= Numbers(|s.threads|);
      Smaller(xs, Numbers(|s.threads|));
    } else {
      assert TicketOk(s, i);
      hide LockOk;
      WindowSet(s, i + 1, xs + {s.order[i]});
    }
  }

  lemma Window(s: State)
    requires LockOk(s)
    ensures |s.order| <= s.served + |s.threads|
  {
    WindowSet(s, s.served, {});
  }

  lemma TakeStep(s: State, s': State, p: nat)
    requires LockOk(s) && DoLock(s, s', p, TakeTicket)
    ensures LockOk(s')
  {
    assert s.served < |s.order| ==> TicketOk(s, s.served) && s'.order[s.served] == s.order[s.served];
    forall q | 0 <= q < |s'.threads|
      ensures HolderOk(s', q)
    {
      assert HolderOk(s, q);
    }
    forall i | 0 <= i < |s'.order|
      ensures TicketOk(s', i)
    {
      assert i < |s.order| ==> TicketOk(s, i) && s'.order[i] == s.order[i];
    }
    hide HolderOk, TicketOk;
  }

  /** The flag that is up is that of the lowest ticket out. */
  lemma TurnOf(s: State, p: nat)
    requires LockOk(s) && p < |s.threads| && s.threads[p].pc.Spin? && s.threads[p].slot < |s.flags|
    requires s.flags[s.threads[p].slot]
    ensures s.threads[p].ticket == s.served && !Handing(s)
  {
    assert HolderOk(s, p);
    Window(s);
    ModInjective(s.served, s.threads[p].ticket, |s.threads|);
  }

  lemma PollStep(s: State, s': State, p: nat)
    requires LockOk(s) && DoLock(s, s', p, PollFlag)
    ensures LockOk(s')
  {
    assert HolderOk(s, p);
    if s.flags[s.threads[p].slot] {
      TurnOf(s, p);
    }
    forall q | 0 <= q < |s'.threads|
      ensures HolderOk(s', q)
    {
      assert HolderOk(s, q);
    }
    forall i | 0 <= i < |s'.order|
      ensures TicketOk(s', i)
    {
      assert TicketOk(s, i);
    }
    assert Handing(s') == Handing(s);
    hide HolderOk, TicketOk;
  }

  lemma LeaveStep(s: State, s': State, p: nat)
    requires LockOk(s) && DoLock(s, s', p, Leave)
    ensures LockOk(s')
  {
    assert HolderOk(s, p);
    forall q | 0 <= q < |s'.threads|
      ensures HolderOk(s', q)
    {
      assert HolderOk(s, q);
    }
    forall i | 0 <= i < |s'.order|
      ensures TicketOk(s', i)
    {
      assert TicketOk(s, i);
    }
    hide HolderOk, TicketOk;
  }

  lemma CloseStep(s: State, s': State, p: nat)
    requires LockOk(s) && DoLock(s, s', p, CloseSlot)
    ensures LockOk(s')
  {
    assert HolderOk(s, p);
    forall q | 0 <= q < |s'.threads|
      ensures HolderOk(s', q)
    {
      assert HolderOk(s, q);
    }
    forall i | 0 <= i < |s'.order|
      ensures TicketOk(s', i)
    {
      assert TicketOk(s, i);
    }
    hide HolderOk, TicketOk;
  }

  lemma OpenStep(s: State, s': State, p: nat)
    requires LockOk(s) && DoLock(s, s', p, OpenNext)
    ensures LockOk(s')
  {
    assert HolderOk(s, p);
    BumpMod(s.served, |s.threads|);
    forall q | 0 <= q < |s'.threads|
      ensures HolderOk(s', q)
    {
      assert HolderOk(s, q);
    }
    forall i | 0 <= i < |s'.order|
      ensures TicketOk(s', i)
    {
      assert TicketOk(s, i);
    }
    if s.served + 1 < |s.order| {
      assert TicketOk(s, s.served + 1);
      assert HolderOk(s, s.order[s.served + 1]);
    }
    assert !Handing(s');
    hide HolderOk, TicketOk;
  }

  lemma LockStep(s: State, s': State, p: nat, a: Action)
    requires Inv(s) && Step(s, s', p, a)
    ensures Live(s') ==> LockOk(s')
  {
    StepMoves(s, s', p, a);
    assert BarrierOk(s, p, p);
    if Running(s.threads[p].pc) {
      RunningLive(s, p);
      hide Inv, LockOk;
      match a
      case TakeTicket => TakeStep(s, s', p);
      case PollFlag => PollStep(s, s', p);
      case Leave => LeaveStep(s, s', p);
      case CloseSlot => CloseStep(s, s', p);
      case OpenNext => OpenStep(s, s', p);
      case NextExec => OutsideStep(s, s', p);
      case _ => assert false;
    } else if a.SetFirst? {
      FirstOpen(s, s', p);
    } else if Live(s) && Live(s') {
      hide LockOk;
      assert !Initialising(s.threads[p].pc);
      OutsideStep(s, s', p);
    }
  }

  lemma StepInv(s: State, s': State, p: nat, a: Action)
    requires Inv(s) && Step(s, s', p, a)
    ensures Inv(s')
  {
    StepMoves(s, s', p, a);
    InitStep(s, s', p, a);
    LockStep(s, s', p, a);
    hide InitOk, LockOk;
    forall q, k | 0 <= q < |s.threads| && 0 <= k < |s.threads|
      ensures BarrierOk(s', q, k)
    {
      StepBarrier(s, s', p, a, q, k);
    }
    hide BarrierOk, Step;
  }

  lemma InitInv(s: State)
    requires Init(s) && |s.threads| > 0
    ensures Inv(s)
  {
  }

  lemma {:induction false} RunInv(r: seq<State>, who: seq<nat>, acts: seq<Action>, i: nat)
    requires IsRun(r, who, acts) && |r[0].threads| > 0 && i < |r|
    ensures Inv(r[i])
  {
    hide Step, Inv;
    if i == 0 {
      InitInv(r[0]);
    } else {
      RunInv(r, who, acts, i - 1);
      assert Step(r[i - 1], r[i], who[i - 1], acts[i - 1]);
      StepInv(r[i - 1], r[i], who[i - 1], acts[i - 1]);
    }
  }

  /** Any number of threads may start, with whatever is in memory. */
  lemma CanStart(flags: seq<bool>, tail: nat) returns (s: State)
    ensures |s.threads| == |flags| && s.flags == flags && s.tail == tail && IsRun([s], [], [])
  {
    s := State(seq(|flags|, i => Thread(CountA, 0, 0, 0)), flags, tail, [], 0);
  }

  // ------------------------------------------------------------ what it promises

  /** At most one thread is between the end of `lock` and the end of `unlock`. */
  lemma MutualExclusion(r: seq<State>, who: seq<nat>, acts: seq<Action>, i: nat, p: nat, q: nat)
    requires IsRun(r, who, acts) && i < |r| && p < |r[i].threads| && q < |r[i].threads| && |r[0].threads| > 0
    requires Inside(r[i].threads[p].pc) && Inside(r[i].threads[q].pc)
    ensures p == q
  {
    hide Step, Init;
    RunInv(r, who, acts, i);
    RunningLive(r[i], p);
    assert HolderOk(r[i], p) && HolderOk(r[i], q);
  }

  /** A thread enters with the ticket that follows those already served since the initialisation, and
      the threads still waiting have later ones. */
  lemma EntersInTicketOrder(r: seq<State>, who: seq<nat>, acts: seq<Action>, i: nat, q: nat)
    requires IsRun(r, who, acts) && i < |who| && |r[0].threads| > 0
    requires acts[i].PollFlag? && who[i] < |r[i + 1].threads| && r[i + 1].threads[who[i]].pc.Critical?
    requires q < |r[i].threads| && q != who[i] && Holding(r[i].threads[q].pc)
    ensures who[i] < |r[i].threads| && r[i].threads[who[i]].ticket == r[i].served < r[i].threads[q].ticket
    ensures r[i].threads[q].pc.Spin? && r[i].threads[q].slot != r[i].threads[who[i]].slot
  {
    var s, p := r[i], who[i];
    RunInv(r, who, acts, i);
    assert Step(s, r[i + 1], p, acts[i]);
    hide IsRun;
    RunningLive(s, p);
    TurnOf(s, p);
    assert HolderOk(s, p) && HolderOk(s, q);
    assert TicketOk(s, s.served);
    Window(s);
    if s.threads[q].slot == s.threads[p].slot {
      ModInjective(s.served, s.threads[q].ticket, |s.threads|);
    }
  }

  /** Only thread 0 initialises, and then no thread is in `lock` or `unlock`, in all rounds. */
  lemma InitNeverOverlaps(r: seq<State>, who: seq<nat>, acts: seq<Action>, i: nat, p: nat, q: nat)
    requires IsRun(r, who, acts) && i < |r| && p < |r[i].threads| && q < |r[i].threads| && |r[0].threads| > 0
    requires Initialising(r[i].threads[p].pc)
    ensures p == 0 && !Running(r[i].threads[q].pc)
  {
    hide Step, Init;
    RunInv(r, who, acts, i);
    assert BarrierOk(r[i], p, p);
    InitAlone(r[i], q);
  }

  /** The counters of the barrier never differ by more than one. */
  lemma CountersClose(r: seq<State>, who: seq<nat>, acts: seq<Action>, i: nat, p: nat, q: nat)
    requires IsRun(r, who, acts) && i < |r| && p < |r[i].threads| && q < |r[i].threads| && |r[0].threads| > 0
    ensures r[i].threads[p].ctr <= r[i].threads[q].ctr + 1
  {
    hide Step, Init;
    RunInv(r, who, acts, i);
    assert BarrierOk(r[i], p, q);
  }
}
