/** What a caller of the queue can rely on: witnesses inside each call. */
module MsQueueCalls {
  import opened MsQueue
  import opened MsQueueProof
  import opened MsQueueFifo

  predicate Dequeuing(pc: Pc) {
    || pc.EmptyFirst? || pc.EmptyLast? || pc.DeqFirst? || pc.DeqLast? || pc.DeqNext? || pc.DeqCheck?
    || pc.DeqHelp? || pc.DeqRead? || pc.DeqCas? || pc.DeqReturn?
  }

  predicate Enqueuing(pc: Pc) { Owns(pc) || pc.EnqSwing? || pc.EnqReturn? }

  /** Thread `p` is inside one and the same call of a dequeue in all states from `j` to `i`. */
  ghost predicate SameDequeue(r: seq<State>, j: nat, i: nat, p: nat) {
    j <= i < |r| && forall k | j <= k <= i :: p < |r[k].threads| && Dequeuing(r[k].threads[p].pc)
  }

  ghost predicate SameEnqueue(r: seq<State>, j: nat, i: nat, p: nat) {
    j <= i < |r| && forall k | j <= k <= i :: p < |r[k].threads| && Enqueuing(r[k].threads[p].pc)
  }

  // ------------------------------------------------------------ False

  /** What `q` does to a thread that is in a dequeue afterwards: it was in it before, and it has seen no
      more than the state shows. */
  ghost predicate SawLittle(s: State, s': State, p: nat) {
    p < |s'.threads| && Dequeuing(s'.threads[p].pc) && (s'.threads[p].sawNone || s'.threads[p].sawNoneSwung) ==>
      && p < |s.threads| && Dequeuing(s.threads[p].pc)
      && (s'.threads[p].sawNone ==> s.threads[p].sawNone || s.f + 1 == |s.order|)
      && (s'.threads[p].sawNoneSwung ==> s.threads[p].sawNoneSwung || s.f == s.l)
  }

  predicate EnqStep(a: Action) {
    || a.EnqStart? || a.LoadLast? || a.LoadNext? || a.ReloadLast? || a.LinkOk? || a.LinkFail?
    || a.HelpOk? || a.HelpFail? || a.SwingOk? || a.SwingFail? || a.EnqDone?
  }

  lemma EnqSawLittle(s: State, s': State, p: nat, a: Action)
    requires Step(s, s', p, a) && EnqStep(a)
    ensures p < |s'.threads| && !Dequeuing(s'.threads[p].pc)
  {
  }

  lemma EmptySawLittle(s: State, s': State, p: nat, a: Action)
    requires Step(s, s', p, a) && LocalEmpty(a)
    ensures SawLittle(s, s', p)
  {
  }

  lemma DeqSawLittle(s: State, s': State, p: nat, a: Action)
    requires Step(s, s', p, a) && !EnqStep(a) && !LocalEmpty(a)
    ensures SawLittle(s, s', p)
  {
  }

  lemma StaysStill(s: State, s': State, q: nat, a: Action, p: nat)
    requires Step(s, s', q, a) && p != q
    ensures |s.threads| == |s'.threads| && (p < |s.threads| ==> s'.threads[p] == s.threads[p])
  {
  }

  lemma StepSawLittle(s: State, s': State, q: nat, a: Action, p: nat)
    requires Step(s, s', q, a)
    ensures SawLittle(s, s', p)
  {
    hide Step, Dequeuing;
    if p != q {
      StaysStill(s, s', q, a, p);
    } else if EnqStep(a) {
      EnqSawLittle(s, s', p, a);
    } else if LocalEmpty(a) {
      EmptySawLittle(s, s', p, a);
    } else {
      DeqSawLittle(s, s', p, a);
    }
  }

  lemma {:induction false} SawNoneAt(r: seq<State>, who: seq<nat>, acts: seq<Action>, i: nat, p: nat) returns (j: nat)
    requires IsRun(r, who, acts) && i < |r| && p < |r[i].threads|
    requires Dequeuing(r[i].threads[p].pc) && r[i].threads[p].sawNone
    ensures SameDequeue(r, j, i, p) && r[j].f + 1 == |r[j].order|
    decreases i
  {
    hide Step, Dequeuing, SameDequeue;
    assert i > 0;
    assert Step(r[i - 1], r[i], who[i - 1], acts[i - 1]);
    StepSawLittle(r[i - 1], r[i], who[i - 1], acts[i - 1], p);
    if r[i - 1].f + 1 == |r[i - 1].order| {
      j := i - 1;
      SameOne(r, j, p);
    } else {
      j := SawNoneAt(r, who, acts, i - 1, p);
    }
    hide IsRun;
    SameMore(r, j, i - 1, p);
  }

  lemma {:induction false} SawNoneSwungAt(r: seq<State>, who: seq<nat>, acts: seq<Action>, i: nat, p: nat)
    returns (j: nat)
    requires IsRun(r, who, acts) && i < |r| && p < |r[i].threads|
    requires Dequeuing(r[i].threads[p].pc) && r[i].threads[p].sawNoneSwung
    ensures SameDequeue(r, j, i, p) && r[j].f == r[j].l
    decreases i
  {
    hide Step, Dequeuing, SameDequeue;
    assert i > 0;
    assert Step(r[i - 1], r[i], who[i - 1], acts[i - 1]);
    StepSawLittle(r[i - 1], r[i], who[i - 1], acts[i - 1], p);
    if r[i - 1].f == r[i - 1].l {
      j := i - 1;
      SameOne(r, j, p);
    } else {
      j := SawNoneSwungAt(r, who, acts, i - 1, p);
    }
    hide IsRun;
    SameMore(r, j, i - 1, p);
  }

  lemma SameOne(r: seq<State>, j: nat, p: nat)
    requires j < |r| && p < |r[j].threads| && Dequeuing(r[j].threads[p].pc)
    ensures SameDequeue(r, j, j, p)
  {
  }

  lemma SameMore(r: seq<State>, j: nat, i: nat, p: nat)
    requires SameDequeue(r, j, i, p) && i + 1 < |r| && p < |r[i + 1].threads| && Dequeuing(r[i + 1].threads[p].pc)
    ensures SameDequeue(r, j, i + 1, p)
  {
  }

  /** `False` from a dequeue means a state inside that very call in which no element that `last` had
      reached was left and, unless the wrapper's `Empty` gave the answer, one in which none was linked. */
  lemma FalseHasWitness(r: seq<State>, who: seq<nat>, acts: seq<Action>, i: nat, p: nat) returns (j: nat, k: nat)
    requires IsRun(r, who, acts) && i < |r| && p < |r[i].threads|
    requires r[i].threads[p].pc.DeqReturn? && !r[i].threads[p].pc.ok
    ensures SameDequeue(r, j, i, p) && Inv(r[j]) && Swung(r[j]) == []
    ensures !r[i].threads[p].pc.early ==> SameDequeue(r, k, i, p) && Inv(r[k]) && Linked(r[k]) == []
  {
    hide Step, Init;
    RunInv(r, who, acts, i);
    assert PcOk(r[i], p);
    assert Dequeuing(r[i].threads[p].pc);
    hide PcOk, Inv, Dequeuing, IsRun;
    j := SawNoneSwungAt(r, who, acts, i, p);
    k := j;
    RunInv(r, who, acts, j);
    NoneLeft(r[j]);
    if !r[i].threads[p].pc.early {
      k := SawNoneAt(r, who, acts, i, p);
      RunInv(r, who, acts, k);
      NoneLeft(r[k]);
    }
  }

  lemma NoneLeft(s: State)
    requires Inv(s)
    ensures s.f == s.l ==> Swung(s) == []
    ensures s.f + 1 == |s.order| ==> Linked(s) == []
  {
  }

  /** `Empty` compares whole words: it answers true exactly when `last` still is where `first` was. */
  lemma EmptyTestExact(s: State, p: nat)
    requires Inv(s) && p < |s.threads| && s.threads[p].pc.EmptyLast?
    ensures s.threads[p].pc.first == s.last <==> s.threads[p].pc.fi == s.l
    ensures s.threads[p].pc.first == s.last ==> Swung(s) == []
  {
    assert PcOk(s, p);
    var pc := s.threads[p].pc;
    if pc.first == s.last {
      SameIndex(s, s.last, pc.fi, s.l);
    }
    hide PcOk;
  }

  // ------------------------------------------------------------ Enqueue takes effect inside its call

  /** The index at which the enqueuer's node is linked. */
  predicate LinkedAt(pc: Pc, k: nat) { (pc.EnqSwing? && pc.li + 1 == k) || (pc.EnqReturn? && pc.k == k) }

  lemma LastMoves(s: State, s': State, q: nat, a: Action)
    requires Step(s, s', q, a)
    ensures s.l <= s'.l <= s.l + 1
  {
  }

  lemma LinkedAtMover(s: State, s': State, p: nat, a: Action, k: nat)
    requires Step(s, s', p, a) && EnqStep(a) && !a.LinkOk? && LinkedAt(s'.threads[p].pc, k)
    ensures LinkedAt(s.threads[p].pc, k)
  {
  }

  lemma DequeuerNotLinked(s: State, s': State, p: nat, a: Action, k: nat)
    requires Step(s, s', p, a) && !EnqStep(a)
    ensures p < |s'.threads| && !LinkedAt(s'.threads[p].pc, k)
  {
  }

  lemma LinkedAtOther(s: State, s': State, q: nat, a: Action, p: nat, k: nat)
    requires Step(s, s', q, a) && !(a.LinkOk? && q == p) && p < |s'.threads| && LinkedAt(s'.threads[p].pc, k)
    ensures p < |s.threads| && LinkedAt(s.threads[p].pc, k) && s.l <= s'.l <= s.l + 1
  {
    hide Step, LinkedAt;
    StepThreads(s, s', q, a);
    LastMoves(s, s', q, a);
    if q != p {
      StaysStill(s, s', q, a, p);
    } else if EnqStep(a) {
      LinkedAtMover(s, s', p, a, k);
    } else {
      DequeuerNotLinked(s, s', p, a, k);
    }
  }

  lemma LinkedAtStep(s: State, s': State, q: nat, a: Action, p: nat, k: nat)
    requires Inv(s) && Step(s, s', q, a) && p < |s'.threads| && LinkedAt(s'.threads[p].pc, k) && k <= s'.l
    ensures p < |s.threads| && Enqueuing(s.threads[p].pc)
    ensures s.l + 1 == k == s'.l || (k <= s.l && LinkedAt(s.threads[p].pc, k))
  {
    if a.LinkOk? && q == p {
      assert PcOk(s, p);
      hide PcOk, Inv;
      LinkOkList(s, s', p);
    } else {
      LinkedAtOther(s, s', q, a, p, k);
      hide Step, Inv;
    }
  }

  lemma {:induction false} SwungAt(r: seq<State>, who: seq<nat>, acts: seq<Action>, i: nat, p: nat, k: nat)
    returns (j: nat)
    requires IsRun(r, who, acts) && i < |r| && p < |r[i].threads| && LinkedAt(r[i].threads[p].pc, k) && k <= r[i].l
    ensures j < i && SameEnqueue(r, j, i, p) && r[j].l + 1 == k == r[j + 1].l
    decreases i
  {
    hide Step, Inv;
    assert i > 0;
    assert Step(r[i - 1], r[i], who[i - 1], acts[i - 1]);
    RunInv(r, who, acts, i - 1);
    LinkedAtStep(r[i - 1], r[i], who[i - 1], acts[i - 1], p, k);
    if r[i - 1].l + 1 == k == r[i].l {
      j := i - 1;
    } else {
      j := SwungAt(r, who, acts, i - 1, p, k);
    }
  }

  lemma SwungGrows(s: State, s': State, p: nat, a: Action)
    requires Inv(s) && Inv(s') && Step(s, s', p, a) && s'.l == s.l + 1
    ensures |Swung(s')| == |Swung(s)| + 1 && Swung(s) <= Swung(s')
  {
    StepEffect(s, s', p, a);
    assert Swings(a);
    hide Step, Inv, ListOk, Swung, Linked;
  }

  lemma {:induction false} OrderKept(r: seq<State>, who: seq<nat>, acts: seq<Action>, j: nat, i: nat)
    requires IsRun(r, who, acts) && j <= i < |r|
    ensures r[j].order <= r[i].order
    decreases i
  {
    if j < i {
      OrderKept(r, who, acts, j, i - 1);
      assert Step(r[i - 1], r[i], who[i - 1], acts[i - 1]);
    }
  }
}
