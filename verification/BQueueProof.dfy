/** Every step of the ring keeps `Inv`, if the batched producer has room for two batches.

    `RingOk` is about the slots: each belongs to the counts that are equal modulo the size of the ring, and
    one turn of the ring holds what was produced and not yet consumed.

    `ProducerOk` and `ConsumerOk` are about what either side may do without looking: the producer up to
    `grantedTo`, the consumer up to `readyTo`. The steps of one side can only help the other
    (`ProducerUntouched`, `ConsumerUntouched`).

    The hard steps are the probes: one full or empty slot a batch ahead has to speak for the whole batch
    (`BatchFree`, `ProbedFull`). */
module BQueueProof {
  import opened BQueue
  import opened ModArith

  function Made(s: State): nat { |s.produced| }

  function Taken(s: State): nat { |s.consumed| }

  /** The batched producer looks one batch ahead, which needs another batch in the ring. */
  predicate RoomForBatch(cfg: Config) { cfg.prodBatch ==> cfg.k >= 2 || cfg.b == 1 }

  /** What belongs into the slot of count `c`. */
  function Slot(s: State, c: nat): int { if c < Made(s) then s.produced[c] else 0 }

  /** The slots hold what was produced and not yet consumed, and 0 elsewhere. */
  ghost predicate RingOk(s: State) {
    && s.cfg.b > 0 && s.cfg.k > 0 && RoomForBatch(s.cfg)
    && var size := Size(s.cfg);
       && |s.data| == size > 0 && s.cfg.b <= size && (s.cfg.k >= 2 ==> 2 * s.cfg.b <= size)
       && s.head == Made(s) % size && s.tail == Taken(s) % size
       && Taken(s) <= Made(s) <= Taken(s) + size
       && (forall c | 0 <= c < Made(s) :: s.produced[c] != 0)
       && (forall c | Taken(s) <= c < Taken(s) + size :: s.data[c % size] == Slot(s, c))
       && s.consumed == s.produced[..Taken(s)]
  }

  /** What the batched producer may fill without looking. */
  ghost predicate GrantOk(s: State)
    requires |s.data| > 0 && s.cfg.b > 0
  {
    && s.batchHead == s.grantedTo % |s.data| && s.grantedTo % s.cfg.b == 0
    && Made(s) <= s.grantedTo <= Made(s) + s.cfg.b
    && s.grantedTo + (if s.cfg.k >= 2 then 1 else 0) <= Taken(s) + |s.data|
  }

  ghost predicate ProducerOk(s: State)
    requires |s.data| > 0 && s.cfg.b > 0
  {
    && (s.cfg.prodBatch ==> GrantOk(s))
    && match s.p
       case PIdle => !s.cfg.prodBatch || s.cfg.k >= 2 || s.grantedTo == Made(s)
       case PDone(_) => !s.cfg.prodBatch || s.cfg.k >= 2 || s.grantedTo == Made(s)
       case PProbe(v, at) =>
         && v != 0
         && if s.cfg.prodBatch then at == Ahead(s.head, s.cfg.b, |s.data|) && s.grantedTo == Made(s) else at == s.head
       case PWrite(v) => v != 0 && if s.cfg.prodBatch then Made(s) < s.grantedTo else Made(s) < Taken(s) + |s.data|
  }

  /** The number of halvings from `h` to 0. */
  function Halvings(h: nat): nat { if h == 0 then 0 else 1 + Halvings(h / 2) }

  function AtMost(h: nat): nat { if h == 0 then 1 else Halvings(h) }

  ghost predicate ConsumerOk(s: State)
    requires |s.data| > 0
  {
    && s.history <= s.cfg.b
    && (s.cfg.consBatch ==>
          s.batchTail == s.readyTo % |s.data| && Taken(s) <= s.readyTo <= Made(s) && s.readyTo <= Taken(s) + |s.data|)
    && match s.c
       case CIdle => s.cfg.consBatch ==> s.readyTo < Taken(s) + |s.data|
       case CDone(_, _) => s.cfg.consBatch ==> s.readyTo < Taken(s) + |s.data|
       case CProbe(at, batch, halvings, had) =>
         if s.cfg.consBatch then
           && s.readyTo == Taken(s) && batch <= s.history && (had ==> Taken(s) < Made(s))
           && at == Ahead(s.tail, if halvings == 0 then s.cfg.b else batch, |s.data|)
           && (halvings == 0 ==> batch == s.history) && (!s.cfg.backtracking ==> halvings == 0)
           && (had && halvings > 0 ==> halvings + Halvings(batch) <= AtMost(s.history))
         else at == s.tail
       case CRead => Taken(s) < Made(s) && (s.cfg.consBatch ==> Taken(s) < s.readyTo)
       case CClear(v) => Taken(s) < Made(s) && (s.cfg.consBatch ==> Taken(s) < s.readyTo) && v == s.produced[Taken(s)]
  }

  ghost predicate Inv(s: State) { RingOk(s) && ProducerOk(s) && ConsumerOk(s) }

  // ------------------------------------------------------------ the ring

  /** `head` and `tail` count on around the ring. */
  lemma AheadOne(i: nat, size: nat)
    requires size > 0
    ensures Ahead(i % size, 1, size) == (i + 1) % size
  {
    if i % size + 1 < size {
      AddMod(i, 1, size);
    } else {
      WrapMod(i, size);
    }
  }

  /** The index `d` ahead, or 0, belongs to a count at most `d` on. */
  lemma AheadCount(i: nat, d: nat, size: nat) returns (e: nat)
    requires size > 0
    ensures e < size && e <= d && Ahead(i % size, d, size) == (i + e) % size
    ensures i % size + d < size ==> e == d
    ensures i % size + d >= size ==> (e == 0 && i % size == 0) || e == size - i % size
  {
    if i % size + d < size {
      AddMod(i, d, size);
      e := d;
    } else if i % size == 0 {
      e := 0;
    } else {
      WrapMod(i, size);
      e := size - i % size;
    }
  }

  /** A slot within one turn of `tail` is empty exactly when nothing has been produced for it yet. */
  lemma SlotEmpty(s: State, c: nat)
    requires RingOk(s) && Taken(s) <= c < Taken(s) + |s.data|
    ensures s.data[c % |s.data|] == 0 <==> Made(s) <= c
  {
    assert s.data[c % |s.data|] == Slot(s, c);
  }

  lemma WriteRing(s: State, s': State)
    requires RingOk(s) && ProducerOk(s) && DoWrite(s, s')
    ensures RingOk(s') && Made(s') == Made(s) + 1 && Taken(s') == Taken(s) && s.data[s.head] == 0
  {
    var size, w, t := |s.data|, Made(s), Taken(s);
    assert w < t + size;
    SlotEmpty(s, w);
    AheadOne(w, size);
    forall c | t <= c < t + size
      ensures s'.data[c % size] == Slot(s', c)
    {
      assert s.data[c % size] == Slot(s, c);
      if c % size == w % size {
        if c <= w {
          ModInjective(c, w, size);
        } else {
          ModInjective(w, c, size);
        }
      }
    }
    assert s'.produced[..t] == s.produced[..t];
  }

  lemma ClearRing(s: State, s': State)
    requires RingOk(s) && ConsumerOk(s) && DoClear(s, s')
    ensures RingOk(s') && Made(s') == Made(s) && Taken(s') == Taken(s) + 1
  {
    var size, w, t := |s.data|, Made(s), Taken(s);
    AheadOne(t, size);
    forall c | t + 1 <= c < t + 1 + size
      ensures s'.data[c % size] == Slot(s', c)
    {
      if c == t + size {
        TurnMod(t, size);
      } else {
        assert s.data[c % size] == Slot(s, c);
        if c % size == t % size {
          ModInjective(t, c, size);
        }
      }
    }
    assert s'.consumed == s'.produced[..t + 1];
  }

  // ------------------------------------------------------------ the producer

  lemma EnqueueKeeps(s: State, s': State, v: int)
    requires RingOk(s) && ProducerOk(s) && DoEnqueue(s, s', v)
    ensures RingOk(s') && ProducerOk(s')
  {
    if s.cfg.prodBatch && s.head == s.batchHead {
      ModInjective(Made(s), s.grantedTo, |s.data|);
    }
    assert forall c | Taken(s) <= c < Taken(s) + |s.data| :: s'.data[c % |s.data|] == Slot(s, c) == Slot(s', c);
  }

  /** A free slot one batch ahead means that the whole batch is free, and one slot more if the ring has
      room for two batches. */
  lemma BatchFree(s: State)
    requires RingOk(s) && s.cfg.prodBatch && Made(s) % s.cfg.b == 0
    ensures var at := Ahead(s.head, s.cfg.b, |s.data|);
            && at == (Made(s) + s.cfg.b) % |s.data|
            && (s.data[at] == 0 <==> Made(s) + s.cfg.b + (if s.cfg.k >= 2 then 1 else 0) <= Taken(s) + |s.data|)
  {
    var w, b, size := Made(s), s.cfg.b, |s.data|;
    MultipleFits(w, b, s.cfg.k);
    if w % size + b < size {
      AddMod(w, b, size);
    } else {
      WrapMod(w, size);
    }
    if s.cfg.k == 1 {
      assert size == 1;
      SlotEmpty(s, Taken(s));
    } else if w + b >= Taken(s) + size {
      TurnMod(w + b - size, size);
      SlotEmpty(s, w + b - size);
    } else {
      SlotEmpty(s, w + b);
    }
  }

  lemma ProbeHeadKeeps(s: State, s': State)
    requires RingOk(s) && ProducerOk(s) && DoProbeHead(s, s')
    ensures RingOk(s') && ProducerOk(s')
  {
    if s.cfg.prodBatch {
      BatchFree(s);
      AddMultiple(s.grantedTo, s.cfg.b);
    } else if Made(s) < Taken(s) + |s.data| {
      SlotEmpty(s, Made(s));
    } else {
      TurnMod(Taken(s), |s.data|);
      SlotEmpty(s, Taken(s));
    }
    assert forall c | Taken(s) <= c < Taken(s) + |s.data| :: s'.data[c % |s.data|] == Slot(s, c) == Slot(s', c);
  }

  lemma WriteKeeps(s: State, s': State)
    requires RingOk(s) && ProducerOk(s) && DoWrite(s, s')
    ensures RingOk(s') && ProducerOk(s')
  {
    WriteRing(s, s');
    hide RingOk;
  }

  lemma ProducerStep(s: State, s': State, a: Action)
    requires RingOk(s) && ProducerOk(s) && Step(s, s', a)
    requires a.Enqueue? || a.ProbeHead? || a.Write? || a.EnqueueReturns?
    ensures RingOk(s') && ProducerOk(s')
  {
    match a
    case Enqueue(v) =>
      hide RingOk, ProducerOk;
      EnqueueKeeps(s, s', v);
    case ProbeHead =>
      hide RingOk, ProducerOk;
      ProbeHeadKeeps(s, s');
    case Write =>
      hide RingOk, ProducerOk;
      WriteKeeps(s, s');
    case EnqueueReturns =>
      assert forall c | Taken(s) <= c < Taken(s) + |s.data| :: s'.data[c % |s.data|] == Slot(s, c) == Slot(s', c);
  }

  /** The producer leaves the consumer's side alone: more is there to take, never less. */
  lemma ConsumerUntouched(s: State, s': State, a: Action)
    requires RingOk(s) && RingOk(s') && ConsumerOk(s) && Step(s, s', a)
    requires a.Enqueue? || a.ProbeHead? || a.Write? || a.EnqueueReturns?
    ensures ConsumerOk(s')
  {
    assert Taken(s') == Taken(s) && Made(s') >= Made(s) && s.produced <= s'.produced;
  }

  // ------------------------------------------------------------ the consumer

  /** The slot a probe looks at is full exactly when all counts before it have been produced. */
  lemma ProbedFull(s: State, d: nat) returns (e: nat)
    requires RingOk(s)
    ensures e <= d && e < |s.data| && Ahead(s.tail, d, |s.data|) == (Taken(s) + e) % |s.data|
    ensures s.data[Ahead(s.tail, d, |s.data|)] != 0 <==> Taken(s) + e < Made(s)
    ensures d == 0 ==> e == 0
  {
    e := AheadCount(Taken(s), d, |s.data|);
    SlotEmpty(s, Taken(s) + e);
  }

  lemma SameRing(s: State, s': State)
    requires RingOk(s) && s'.cfg == s.cfg && s'.data == s.data && s'.head == s.head && s'.tail == s.tail
    requires s'.produced == s.produced && s'.consumed == s.consumed
    ensures RingOk(s')
  {
    assert forall c | Taken(s) <= c < Taken(s) + |s.data| :: s'.data[c % |s.data|] == Slot(s, c) == Slot(s', c);
  }

  lemma DequeueKeeps(s: State, s': State)
    requires RingOk(s) && ConsumerOk(s) && DoDequeue(s, s')
    ensures RingOk(s') && ConsumerOk(s')
  {
    SameRing(s, s');
    if s.cfg.consBatch && s.tail == s.batchTail {
      ModInjective(Taken(s), s.readyTo, |s.data|);
    }
  }

  /** The distance recorded is the number of counts granted to the consumer. */
  lemma DistanceIs(s: State, e: nat)
    requires RingOk(s) && e < |s.data|
    ensures var at := (Taken(s) + e) % |s.data|;
            && Distance(s, at) == (if e == 0 then 1 else e)
            && (at == s.tail <==> e == 0)
            && (if at == s.tail then Ahead(at, 1, |s.data|) else at) == (Taken(s) + Distance(s, at)) % |s.data|
  {
    var size, t := |s.data|, Taken(s);
    if t % size + e < size {
      AddMod(t, e, size);
    } else {
      OverMod(t, e, size);
    }
    AheadOne(t, size);
  }

  lemma ProbeGrants(s: State, s': State)
    requires RingOk(s) && ConsumerOk(s) && DoProbeTail(s, s') && s.cfg.consBatch && s.data[s.c.at] != 0
    ensures RingOk(s') && ConsumerOk(s')
  {
    SameRing(s, s');
    var d := if s.c.halvings == 0 then s.cfg.b else s.c.batch;
    var e := ProbedFull(s, d);
    DistanceIs(s, e);
    hide RingOk;
  }

  lemma ProbeHalves(s: State, s': State)
    requires RingOk(s) && ConsumerOk(s) && DoProbeTail(s, s') && s.cfg.consBatch && s.data[s.c.at] == 0
    ensures RingOk(s') && ConsumerOk(s')
  {
    SameRing(s, s');
    var d := if s.c.halvings == 0 then s.cfg.b else s.c.batch;
    var e := ProbedFull(s, d);
    assert Halvings(s.c.batch / 2) <= Halvings(s.c.batch);
    hide RingOk;
  }

  lemma ProbeTailKeeps(s: State, s': State)
    requires RingOk(s) && ConsumerOk(s) && DoProbeTail(s, s')
    ensures RingOk(s') && ConsumerOk(s')
  {
    if !s.cfg.consBatch {
      SameRing(s, s');
      SlotEmpty(s, Taken(s));
    } else if s.data[s.c.at] != 0 {
      ProbeGrants(s, s');
    } else {
      ProbeHalves(s, s');
    }
  }

  lemma ReadKeeps(s: State, s': State)
    requires RingOk(s) && ConsumerOk(s) && DoRead(s, s')
    ensures RingOk(s') && ConsumerOk(s')
  {
    SameRing(s, s');
    assert s.data[Taken(s) % |s.data|] == Slot(s, Taken(s));
  }

  lemma ClearKeeps(s: State, s': State)
    requires RingOk(s) && ConsumerOk(s) && DoClear(s, s')
    ensures RingOk(s') && ConsumerOk(s')
  {
    ClearRing(s, s');
    hide RingOk;
  }

  lemma ConsumerStep(s: State, s': State, a: Action)
    requires RingOk(s) && ConsumerOk(s) && Step(s, s', a)
    requires a.Dequeue? || a.ProbeTail? || a.Read? || a.Clear? || a.DequeueReturns?
    ensures RingOk(s') && ConsumerOk(s')
  {
    match a
    case Dequeue =>
      hide RingOk, ConsumerOk;
      DequeueKeeps(s, s');
    case ProbeTail =>
      hide RingOk, ConsumerOk;
      ProbeTailKeeps(s, s');
    case Read =>
      hide RingOk, ConsumerOk;
      ReadKeeps(s, s');
    case Clear =>
      hide RingOk, ConsumerOk;
      ClearKeeps(s, s');
    case DequeueReturns =>
      SameRing(s, s');
  }

  lemma ProducerUntouched(s: State, s': State, a: Action)
    requires RingOk(s) && RingOk(s') && ProducerOk(s) && Step(s, s', a)
    requires a.Dequeue? || a.ProbeTail? || a.Read? || a.Clear? || a.DequeueReturns?
    ensures ProducerOk(s')
  {
    assert Taken(s') >= Taken(s) && s'.produced == s.produced;
  }

  // ------------------------------------------------------------ all runs

  lemma StepInv(s: State, s': State, a: Action)
    requires Inv(s) && Step(s, s', a)
    ensures Inv(s')
  {
    hide Step, RingOk, ProducerOk, ConsumerOk;
    if a.Enqueue? || a.ProbeHead? || a.Write? || a.EnqueueReturns? {
      ProducerStep(s, s', a);
      ConsumerUntouched(s, s', a);
    } else {
      ConsumerStep(s, s', a);
      ProducerUntouched(s, s', a);
    }
  }

  lemma InitInv(s: State)
    requires Init(s) && RoomForBatch(s.cfg)
    ensures Inv(s)
  {
    MulMono(1, s.cfg.k, s.cfg.b);
    if s.cfg.k >= 2 {
      MulMono(2, s.cfg.k, s.cfg.b);
    }
  }

  lemma {:induction false} RunInv(r: seq<State>, acts: seq<Action>, i: nat)
    requires IsRun(r, acts) && RoomForBatch(r[0].cfg) && i < |r|
    ensures Inv(r[i]) && r[i].cfg == r[0].cfg
  {
    hide Inv, Step;
    if i == 0 {
      InitInv(r[0]);
    } else {
      RunInv(r, acts, i - 1);
      assert Step(r[i - 1], r[i], acts[i - 1]);
      hide IsRun;
      StepInv(r[i - 1], r[i], acts[i - 1]);
      SameConfig(r[i - 1], r[i], acts[i - 1]);
    }
  }

  lemma SameConfig(s: State, s': State, a: Action)
    requires Step(s, s', a)
    ensures s'.cfg == s.cfg
  {
  }
}
