/** What the ring promises its two threads, and exactly when. */
module BQueueCalls {
  import opened BQueue
  import opened BQueueProof
  import opened ModArith

  /** The values consumed are a prefix of the values produced, none is lost or made up, and no more are
      in the ring than fit. */
  lemma ConsumedIsPrefix(r: seq<State>, acts: seq<Action>, i: nat)
    requires IsRun(r, acts) && RoomForBatch(r[0].cfg) && i < |r|
    ensures r[i].consumed <= r[i].produced
    ensures |r[i].produced| <= |r[i].consumed| + Size(r[i].cfg)
  {
    RunInv(r, acts, i);
    hide IsRun;
  }

  /** The batched producer leaves at least one slot empty. */
  lemma BatchedNeverFills(r: seq<State>, acts: seq<Action>, i: nat)
    requires IsRun(r, acts) && r[0].cfg.prodBatch && r[0].cfg.k >= 2 && i < |r|
    ensures |r[i].produced| < |r[i].consumed| + Size(r[i].cfg)
  {
    RunInv(r, acts, i);
    hide IsRun;
  }

  /** `dequeue` returns as data only what was produced, which is never 0. */
  lemma DataIsNeverZero(r: seq<State>, acts: seq<Action>, i: nat)
    requires IsRun(r, acts) && RoomForBatch(r[0].cfg) && i < |acts| && acts[i].Clear?
    ensures r[i].c.CClear? && r[i].c.v != 0 && |r[i].consumed| < |r[i].produced|
    ensures r[i].c.v == r[i].produced[|r[i].consumed|] && r[i + 1].consumed == r[i].consumed + [r[i].c.v]
    ensures r[i + 1].c == CDone(true, r[i].c.v)
  {
    RunInv(r, acts, i);
    assert Step(r[i], r[i + 1], acts[i]);
    hide IsRun;
  }

  // ------------------------------------------------------------ what the return codes mean

  /** The room a probe of the producer asks for: one value, or batched a batch and, in a ring of two batches or
      more, one slot to spare. */
  function Need(cfg: Config): nat { if !cfg.prodBatch then 1 else if cfg.k >= 2 then cfg.b + 1 else cfg.b }

  /** Each probe of the producer succeeds exactly when there is that room. */
  lemma FullMeansFull(s: State, s': State)
    requires Inv(s) && Step(s, s', ProbeHead)
    ensures s'.p.PWrite? <==> |s.produced| + Need(s.cfg) <= |s.consumed| + |s.data|
    ensures s'.p.PWrite? || s'.p == PDone(false)
  {
    if s.cfg.prodBatch {
      BatchFree(s);
    } else if Made(s) < Taken(s) + |s.data| {
      SlotEmpty(s, Made(s));
    } else {
      TurnMod(Taken(s), |s.data|);
      SlotEmpty(s, Taken(s));
    }
  }

  /** The plain `dequeue` reports an empty ring exactly when it is empty. */
  lemma PlainEmptyMeansEmpty(s: State, s': State)
    requires Inv(s) && Step(s, s', ProbeTail) && !s.cfg.consBatch
    ensures s'.c == CDone(false, 0) <==> |s.produced| == |s.consumed|
    ensures s'.c.CRead? <==> |s.consumed| < |s.produced|
  {
    SlotEmpty(s, Taken(s));
  }

  /** How far ahead the batched one looks: a batch, or to the start of the ring if that is nearer. */
  function BatchReach(s: State): int {
    if s.tail + s.cfg.b < |s.data| then s.cfg.b else if s.tail == 0 then 0 else |s.data| - s.tail
  }

  /** The batched one without backtracking does so whenever fewer than a batch and one are there, or fewer
      than reach the end of the ring and one. */
  lemma BatchedEmptyMeansFew(s: State, s': State)
    requires Inv(s) && Step(s, s', ProbeTail) && s.cfg.consBatch && !s.cfg.backtracking
    ensures s'.c == CDone(false, 0) <==> |s.produced| <= |s.consumed| + BatchReach(s)
  {
    var e := ProbedFull(s, s.cfg.b);
    ProbedAt(s, e);
    hide RingOk, ProducerOk;
  }

  lemma ProbedAt(s: State, e: nat)
    requires RingOk(s) && e <= s.cfg.b && e < |s.data|
    requires Ahead(s.tail, s.cfg.b, |s.data|) == (Taken(s) + e) % |s.data|
    ensures e == BatchReach(s)
  {
    var e' := AheadCount(Taken(s), s.cfg.b, |s.data|);
    if e <= e' {
      ModInjective(Taken(s) + e, Taken(s) + e', |s.data|);
    } else {
      ModInjective(Taken(s) + e', Taken(s) + e, |s.data|);
    }
  }

  /** What a successful probe hands to the consumer: at least one slot, and all of them full. */
  lemma GrantedSlotsFull(s: State, s': State, c: nat)
    requires Inv(s) && Step(s, s', ProbeTail) && s.cfg.consBatch && s'.c.CRead?
    requires |s.consumed| <= c < s'.readyTo
    ensures |s.consumed| < s'.readyTo <= |s.produced| && s'.batchTail == s'.readyTo % |s.data|
    ensures s'.data[c % |s.data|] == s.produced[c] != 0
  {
    StepInv(s, s', ProbeTail);
    assert s'.data[c % |s.data|] == Slot(s', c);
  }

  // ------------------------------------------------------------ arguments and answers

  /** The value the producer is about to write. */
  predicate Holds(p: Producer, v: int) { (p.PProbe? && p.v == v) || p == PWrite(v) }

  /** `enqueue` was called with `v` at step `b` and has been under way up to state `j`. */
  ghost predicate SameEnqueue(r: seq<State>, acts: seq<Action>, b: nat, j: nat, v: int) {
    && b < j < |r| && j <= |acts| && acts[b] == Enqueue(v)
    && (forall k | b < k <= j :: Holds(r[k].p, v))
    && (forall k | b < k < j :: !acts[k].Enqueue?)
  }

  lemma HoldsStep(s: State, s': State, a: Action, v: int)
    requires Step(s, s', a) && Holds(s'.p, v)
    ensures if a.Enqueue? then a.v == v else Holds(s.p, v)
  {
  }

  lemma {:induction false} ArgumentOf(r: seq<State>, acts: seq<Action>, j: nat, v: int) returns (b: nat)
    requires IsRun(r, acts) && j < |r| && Holds(r[j].p, v)
    ensures SameEnqueue(r, acts, b, j, v)
    decreases j
  {
    hide Step;
    assert j > 0;
    assert Step(r[j - 1], r[j], acts[j - 1]);
    HoldsStep(r[j - 1], r[j], acts[j - 1], v);
    if acts[j - 1].Enqueue? {
      b := j - 1;
    } else {
      hide Init;
      b := ArgumentOf(r, acts, j - 1, v);
    }
  }

  /** The step that gave the answer of `enqueue` of `v`. */
  ghost predicate EnqueueAnswer(s: State, s': State, a: Action, v: int) {
    && Holds(s.p, v)
    && if s'.p == PDone(true) then a.Write? && s'.produced == s.produced + [v]
       else s'.p == PDone(false) && a.ProbeHead? && |s.produced| + Need(s.cfg) > |s.consumed| + |s.data|
            && s'.produced == s.produced
  }

  lemma ProducerAnswers(s: State, s': State, a: Action)
    requires Inv(s) && Step(s, s', a) && s'.p.PDone?
    ensures s'.p == s.p || ((s.p.PProbe? || s.p.PWrite?) && EnqueueAnswer(s, s', a, s.p.v))
  {
    if a.ProbeHead? {
      FullMeansFull(s, s');
    }
    hide Inv;
  }

  /** What `enqueue` answers has been so at a step of that very call: True, and its argument was appended then, or
      False, and there was no room. */
  lemma {:induction false} EnqueueAnswers(r: seq<State>, acts: seq<Action>, i: nat) returns (b: nat, j: nat, v: int)
    requires IsRun(r, acts) && RoomForBatch(r[0].cfg) && i < |r| && r[i].p.PDone?
    ensures b < j < i && SameEnqueue(r, acts, b, j, v) && EnqueueAnswer(r[j], r[j + 1], acts[j], v)
    ensures forall k | j < k <= i :: r[k].p == r[i].p
    decreases i
  {
    hide Step, Inv, EnqueueAnswer;
    assert i > 0;
    assert Step(r[i - 1], r[i], acts[i - 1]);
    RunInv(r, acts, i - 1);
    ProducerAnswers(r[i - 1], r[i], acts[i - 1]);
    if r[i - 1].p == r[i].p {
      hide Init;
      b, j, v := EnqueueAnswers(r, acts, i - 1);
    } else {
      j, v := i - 1, r[i - 1].p.v;
      b := ArgumentOf(r, acts, j, v);
    }
  }

  /** The step that gave the answer of `dequeue`. */
  ghost predicate DequeueAnswer(s: State, s': State, a: Action) {
    if s'.c.CDone? && s'.c.ok then
      && a.Clear? && |s.consumed| < |s.produced| && s'.c.v == s.produced[|s.consumed|]
      && s'.consumed == s.consumed + [s'.c.v]
    else
      && s'.c == CDone(false, 0) && a.ProbeTail? && s'.consumed == s.consumed
      && |s.produced| <= |s.consumed| + if s.cfg.consBatch then BatchReach(s) else 0
  }

  lemma ConsumerAnswers(s: State, s': State, a: Action)
    requires Inv(s) && Step(s, s', a) && s'.c.CDone?
    ensures s'.c == s.c || ((s.c.CProbe? || s.c.CClear?) && DequeueAnswer(s, s', a))
  {
    if a.ProbeTail? {
      if s.cfg.consBatch {
        BatchedEmptyMeansFew(s, s');
      } else {
        PlainEmptyMeansEmpty(s, s');
      }
    }
    if a.Clear? {
      hide ProducerOk;
    } else {
      hide Inv;
    }
  }

  /** `dequeue` was called at step `b` and has been under way up to state `j`. */
  ghost predicate SameDequeue(r: seq<State>, acts: seq<Action>, b: nat, j: nat) {
    && b < j < |r| && j <= |acts| && acts[b].Dequeue?
    && (forall k | b < k <= j :: !r[k].c.CIdle? && !r[k].c.CDone?)
  }

  lemma UnderWayStep(s: State, s': State, a: Action)
    requires Step(s, s', a) && !s'.c.CIdle? && !s'.c.CDone?
    ensures a.Dequeue? || (!s.c.CIdle? && !s.c.CDone?)
  {
  }

  lemma {:induction false} CalledAt(r: seq<State>, acts: seq<Action>, j: nat) returns (b: nat)
    requires IsRun(r, acts) && j < |r| && !r[j].c.CIdle? && !r[j].c.CDone?
    ensures SameDequeue(r, acts, b, j)
    decreases j
  {
    hide Step;
    assert j > 0;
    assert Step(r[j - 1], r[j], acts[j - 1]);
    UnderWayStep(r[j - 1], r[j], acts[j - 1]);
    if acts[j - 1].Dequeue? {
      b := j - 1;
    } else {
      hide Init;
      b := CalledAt(r, acts, j - 1);
    }
  }

  /** What `dequeue` answers has been so at a step of that very call: the oldest value, taken out then, or False, and
      none was there, or none as far ahead as the batched one looks. */
  lemma {:induction false} DequeueAnswers(r: seq<State>, acts: seq<Action>, i: nat) returns (b: nat, j: nat)
    requires IsRun(r, acts) && RoomForBatch(r[0].cfg) && i < |r| && r[i].c.CDone?
    ensures b < j < i && SameDequeue(r, acts, b, j) && DequeueAnswer(r[j], r[j + 1], acts[j])
    ensures forall k | j < k <= i :: r[k].c == r[i].c
    decreases i
  {
    hide Step, Inv, DequeueAnswer;
    assert i > 0;
    assert Step(r[i - 1], r[i], acts[i - 1]);
    RunInv(r, acts, i - 1);
    ConsumerAnswers(r[i - 1], r[i], acts[i - 1]);
    if r[i - 1].c == r[i].c {
      hide Init;
      b, j := DequeueAnswers(r, acts, i - 1);
    } else {
      j := i - 1;
      b := CalledAt(r, acts, j);
    }
  }
}
