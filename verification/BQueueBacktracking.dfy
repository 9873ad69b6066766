/** The probing loop of the batched consumer: when a dequeue reports an empty ring, how long it waits, and
    how often it halves its batch. */
module BQueueBacktracking {
  import opened BQueue
  import opened BQueueProof
  import opened BQueueRoom
  import opened ModArith

  // ------------------------------------------------------------ reporting an empty ring

  /** With backtracking, `dequeue` never reports an empty ring. */
  lemma {:induction false} BacktrackingNeverGivesUp(r: seq<State>, acts: seq<Action>, i: nat)
    requires IsRun(r, acts) && r[0].cfg.consBatch && r[0].cfg.backtracking && i < |r|
    ensures r[i].cfg == r[0].cfg && !(r[i].c.CDone? && !r[i].c.ok)
  {
    if i > 0 {
      BacktrackingNeverGivesUp(r, acts, i - 1);
      assert Step(r[i - 1], r[i], acts[i - 1]);
      hide IsRun;
    }
  }

  /** In some run a dequeue returns `BUFFER_EMPTY`. */
  ghost predicate ReportsEmpty(cfg: Config) {
    exists s: State :: Reachable(s) && s.cfg == cfg && s.c == CDone(false, 0)
  }

  /** What `queue_init` leaves. */
  function Fresh(cfg: Config): State {
    State(cfg, Zeros(Size(cfg)), 0, 0, 0, 0, if cfg.consBatch then cfg.b else 0, PIdle, CIdle, [], [], 0, 0)
  }

  /** A dequeue on a new ring, in a variant without backtracking. */
  lemma FreshReports(cfg: Config) returns (s: State)
    requires cfg.b > 0 && cfg.k > 0 && !(cfg.consBatch && cfg.backtracking)
    ensures Reachable(s) && s.cfg == cfg && s.c == CDone(false, 0)
  {
    var s0 := Fresh(cfg);
    assert Size(cfg) > 0 by {
      MulMono(1, cfg.k, cfg.b);
    }
    assert IsRun([s0], []);
    assert [s0][|[s0]| - 1] == s0;
    hide Reachable;
    var s1 := s0.(c := if cfg.consBatch then CProbe(Ahead(0, cfg.b, Size(cfg)), s0.history, 0, false)
                       else CProbe(0, 0, 0, false));
    Reached(s0, s1, Dequeue);
    s := s0.(c := CDone(false, 0));
    Reached(s1, s, ProbeTail);
  }

  /** For every ring size and batch size: `dequeue` can report an empty ring exactly in the variants without
      backtracking. */
  lemma ReportsEmptyIff(cfg: Config)
    requires cfg.b > 0 && cfg.k > 0
    ensures ReportsEmpty(cfg) <==> !(cfg.consBatch && cfg.backtracking)
  {
    if cfg.consBatch && cfg.backtracking {
      forall s: State | Reachable(s) && s.cfg == cfg
        ensures s.c != CDone(false, 0)
      {
        var r: seq<State>, acts: seq<Action> :| IsRun(r, acts) && r[|r| - 1] == s;
        SameConfigRun(r, acts, |r| - 1);
        BacktrackingNeverGivesUp(r, acts, |r| - 1);
      }
    } else {
      var s := FreshReports(cfg);
    }
  }

  // ------------------------------------------------------------ waiting on an empty ring

  /** A probe on an empty ring goes on; once the batch is halved to nothing, it goes on exactly while the
      ring is empty. */
  lemma ProbeGoesOn(s: State, s': State)
    requires Inv(s) && Step(s, s', ProbeTail) && s.cfg.consBatch && s.cfg.backtracking
    ensures |s.consumed| == |s.produced| ==> s'.c.CProbe?
    ensures s.c.halvings > 0 && s.c.batch == 0 ==> (s'.c.CProbe? <==> |s.consumed| == |s.produced|)
  {
    var e := ProbedFull(s, if s.c.halvings == 0 then s.cfg.b else s.c.batch);
    hide RingOk, ProducerOk;
  }

  /** A dequeue begun on an empty ring begins to probe. */
  lemma EmptyProbes(s: State, s': State)
    requires Inv(s) && Step(s, s', Dequeue) && s.cfg.consBatch && |s.consumed| == |s.produced|
    ensures s'.c.CProbe? && |s'.consumed| == |s'.produced|
  {
    assert s.readyTo == Taken(s);
    hide RingOk, ProducerOk;
  }

  lemma StillProbing(s: State, s': State, a: Action)
    requires Step(s, s', a) && s.c.CProbe? && !a.ProbeTail? && !a.Write?
    ensures s'.c == s.c && |s'.consumed| == |s.consumed| && |s'.produced| == |s.produced|
  {
  }

  lemma ProbeKeepsValues(s: State, s': State)
    requires Step(s, s', ProbeTail)
    ensures s'.consumed == s.consumed && s'.produced == s.produced
  {
  }

  /** With backtracking, a dequeue begun on an empty ring does not return before something is written, in
      any run, however long. */
  lemma {:induction false} EmptyDequeueWaits(r: seq<State>, acts: seq<Action>, j: nat, i: nat)
    requires IsRun(r, acts) && RoomForBatch(r[0].cfg) && r[0].cfg.consBatch && r[0].cfg.backtracking
    requires j < i < |r| && acts[j].Dequeue? && |r[j].consumed| == |r[j].produced|
    requires forall m | j <= m < i :: !acts[m].Write?
    ensures r[i].c.CProbe? && |r[i].consumed| == |r[i].produced|
    decreases i
  {
    hide Step, Inv;
    var s, s', a := r[i - 1], r[i], acts[i - 1];
    assert Step(s, s', a);
    RunInv(r, acts, i - 1);
    if i == j + 1 {
      EmptyProbes(s, s');
    } else {
      EmptyDequeueWaits(r, acts, j, i - 1);
      hide IsRun;
      if a.ProbeTail? {
        ProbeGoesOn(s, s');
        ProbeKeepsValues(s, s');
      } else {
        StillProbing(s, s', a);
      }
    }
  }

  ghost predicate AllZero(s: State) { forall k | 0 <= k < |s.data| :: s.data[k] == 0 }

  lemma ZeroStep(s: State, s': State, a: Action)
    requires Step(s, s', a) && s.cfg.consBatch && s.cfg.backtracking && AllZero(s) && !a.Write?
    ensures AllZero(s')
    ensures s.c.CProbe? || (a.Dequeue? && s.tail == s.batchTail) ==> s'.c.CProbe?
  {
  }

  /** The same for every ring size and batch size, whether the producer has room or not: as long as all slots
      are 0, the dequeue goes on. */
  lemma {:induction false} ZeroRingWaits(r: seq<State>, acts: seq<Action>, j: nat, i: nat)
    requires IsRun(r, acts) && r[0].cfg.consBatch && r[0].cfg.backtracking
    requires j < i < |r| && acts[j].Dequeue? && AllZero(r[j]) && r[j].tail == r[j].batchTail
    requires forall m | j <= m < i :: !acts[m].Write?
    ensures r[i].c.CProbe? && AllZero(r[i])
    decreases i
  {
    hide Step, AllZero;
    assert Step(r[i - 1], r[i], acts[i - 1]);
    SameConfigRun(r, acts, i - 1);
    if i > j + 1 {
      ZeroRingWaits(r, acts, j, i - 1);
    }
    ZeroStep(r[i - 1], r[i], acts[i - 1]);
  }

  // ------------------------------------------------------------ halving

  function Pow2(n: nat): nat { if n == 0 then 1 else 2 * Pow2(n - 1) }

  /** `Halvings(h)` is floor(log2(h)) + 1. */
  lemma {:induction false} HalvingsIsLog(h: nat)
    requires h > 0
    ensures Halvings(h) > 0 && Pow2(Halvings(h) - 1) <= h < Pow2(Halvings(h))
  {
    if h > 1 {
      HalvingsIsLog(h / 2);
    }
  }

  lemma {:induction false} PowMono(m: nat, n: nat)
    requires m <= n
    ensures Pow2(m) <= Pow2(n)
  {
    if m < n {
      PowMono(m, n - 1);
    }
  }

  /** How many of the steps from `j` up to `i` are probes of the consumer. */
  function Probes(acts: seq<Action>, j: nat, i: nat): nat
    requires j <= i <= |acts|
  {
    if i == j then 0 else Probes(acts, j, i - 1) + if acts[i - 1].ProbeTail? then 1 else 0
  }

  /** `had` is whether the ring had a value when `backtracking` began. */
  lemma ProbeStarts(s: State, s': State)
    requires Step(s, s', Dequeue) && s'.c.CProbe? && s.cfg.consBatch
    ensures s'.c.halvings == 0 && s'.c.had == (|s.consumed| < |s.produced|)
    ensures s'.c.batch == s'.history == Widened(s) && s'.tail == s.tail
    ensures s'.c.at == Ahead(s.tail, s.cfg.b, |s.data|)
  {
  }

  /** A step within the loop halves exactly if it is a probe. */
  lemma LoopStep(s: State, s': State, a: Action)
    requires Step(s, s', a) && s.c.CProbe? && s'.c.CProbe? && s.cfg.consBatch
    ensures s'.c.halvings == s.c.halvings + (if a.ProbeTail? then 1 else 0)
    ensures s'.c.batch == (if a.ProbeTail? then s.c.batch / 2 else s.c.batch)
    ensures s'.c.at == (if a.ProbeTail? then Ahead(s.tail, s.c.batch / 2, |s.data|) else s.c.at)
    ensures s'.c.had == s.c.had && s'.history == s.history && s'.tail == s.tail && |s'.data| == |s.data|
  {
  }

  lemma HalfOf(w: nat, n: nat)
    ensures Pow2(n) > 0 && (w / Pow2(n)) / 2 == w / Pow2(n + 1)
  {
    PowMono(0, n);
    var q := w / Pow2(n);
    assert w == q * Pow2(n) + w % Pow2(n);
    var r := (q % 2) * Pow2(n) + w % Pow2(n);
    assert q == q / 2 * 2 + q % 2;
    assert q * Pow2(n) == q / 2 * Pow2(n + 1) + (q % 2) * Pow2(n);
    assert r < Pow2(n + 1);
    ModUnique(w, Pow2(n + 1), q / 2, r);
  }

  /** The batch `w` halved `n` times. */
  function Halved(w: nat, n: nat): (h: nat)
    ensures Pow2(n) > 0 && h == w / Pow2(n)
  {
    if n == 0 then w else
      HalfOf(w, n - 1);
      Halved(w, n - 1) / 2
  }

  /** How far ahead of `tail` a probe looks after `n` halvings of the batch `w`: a whole batch at first. */
  function Reach(cfg: Config, w: nat, n: nat): nat { if n == 0 then cfg.b else Halved(w, n) }

  /** From the start of the loop on, the batch has been halved once for each probe: after `n` of them it is the
      history divided by 2^n, and the next probe looks that far ahead. */
  lemma {:induction false} BatchIsHalved(r: seq<State>, acts: seq<Action>, j: nat, i: nat)
    requires IsRun(r, acts) && r[0].cfg.consBatch && j < i < |r| && acts[j].Dequeue?
    requires forall m | j < m <= i :: r[m].c.CProbe?
    ensures var n := Probes(acts, j + 1, i);
            && r[i].c.halvings == n && r[i].c.batch == Halved(Widened(r[j]), n)
            && r[i].c.at == Ahead(r[j].tail, Reach(r[j].cfg, Widened(r[j]), n), |r[j].data|)
    ensures r[i].history == Widened(r[j]) && r[i].c.had == (|r[j].consumed| < |r[j].produced|)
    ensures r[i].tail == r[j].tail && |r[i].data| == |r[j].data| && r[i].cfg == r[j].cfg == r[0].cfg
    decreases i
  {
    hide Step, Widened, Ahead;
    assert Step(r[i - 1], r[i], acts[i - 1]);
    SameConfigRun(r, acts, i - 1);
    SameConfigRun(r, acts, i);
    SameConfigRun(r, acts, j);
    if i == j + 1 {
      ProbeStarts(r[j], r[i]);
      assert Halved(Widened(r[j]), 0) == Widened(r[j]);
      SameSize(r[j], r[i], acts[j]);
    } else {
      BatchIsHalved(r, acts, j, i - 1);
      LoopStep(r[i - 1], r[i], acts[i - 1]);
    }
  }

  lemma SameSize(s: State, s': State, a: Action)
    requires Step(s, s', a)
    ensures |s'.data| == |s.data|
  {
  }

  /** What a full slot `d` ahead is worth: the slots up to it, or to the end of the ring, but at least one. */
  function Granted(tail: nat, d: nat, size: nat): nat
    requires tail < size
  {
    if d == 0 then 1 else if tail + d < size then d else if tail == 0 then 1 else size - tail
  }

  lemma SuccessGrants(s: State, s': State)
    requires Inv(s) && Step(s, s', ProbeTail) && s.cfg.consBatch && s'.c.CRead?
    ensures s.tail < |s.data|
    ensures var d := if s.c.halvings == 0 then s.cfg.b else s.c.batch;
            && s'.readyTo == |s.consumed| + Granted(s.tail, d, |s.data|)
            && s'.batchTail == (s.tail + Granted(s.tail, d, |s.data|)) % |s.data|
    ensures s'.history == if s.cfg.backtracking && s.cfg.adaptive then s.c.batch else s.history
  {
    StepInv(s, s', ProbeTail);
    assert s.readyTo == Taken(s);
    hide RingOk, ProducerOk;
    TailBelow(s);
    GrantedMod(|s.consumed|, s'.readyTo - |s.consumed|, |s.data|);
  }

  lemma TailBelow(s: State)
    requires Inv(s)
    ensures s.tail < |s.data| && s.tail == |s.consumed| % |s.data|
  {
  }

  lemma GrantedMod(c: nat, g: nat, size: nat)
    requires size > 0 && g <= size
    ensures (c + g) % size == (c % size + g) % size
  {
    if c % size + g < size {
      AddMod(c, g, size);
      ModUnique(c % size + g, size, 0, c % size + g);
    } else if g == size {
      TurnMod(c, size);
      TurnMod(c % size, size);
      ModUnique(c % size, size, 0, c % size);
    } else {
      OverMod(c, g, size);
      ModUnique(c % size + g, size, 1, c % size + g - size);
    }
  }

  /** A dequeue that has halved its batch `n` times and then finds a full slot may take the slots that far ahead of
      `tail`, and the adaptive variant remembers just that batch. */
  lemma ProbeSucceeds(r: seq<State>, acts: seq<Action>, j: nat, i: nat)
    requires IsRun(r, acts) && RoomForBatch(r[0].cfg) && r[0].cfg.consBatch
    requires j < i < |acts| && acts[j].Dequeue? && acts[i].ProbeTail? && r[i + 1].c.CRead?
    requires forall m | j < m <= i :: r[m].c.CProbe?
    ensures r[j].tail < |r[j].data|
    ensures var n, w := Probes(acts, j + 1, i), Widened(r[j]);
            var granted := Granted(r[j].tail, Reach(r[j].cfg, w, n), |r[j].data|);
            && r[i + 1].readyTo == |r[i].consumed| + granted
            && r[i + 1].batchTail == (r[j].tail + granted) % |r[j].data|
            && r[i + 1].history == if r[j].cfg.backtracking && r[j].cfg.adaptive then Halved(w, n) else w
  {
    hide Step, Inv, Widened, Granted;
    assert Step(r[i], r[i + 1], acts[i]);
    RunInv(r, acts, i);
    BatchIsHalved(r, acts, j, i);
    hide IsRun;
    TailBelow(r[i]);
    SuccessGrants(r[i], r[i + 1]);
  }

  /** At the end of the ring the adaptive variant widens its history by half a batch, up to a batch; elsewhere, and
      in the other variants, it stays. */
  lemma WidensByHalf(s: State)
    requires s.history <= s.cfg.b
    ensures s.history <= Widened(s) <= s.cfg.b
    ensures s.tail + s.cfg.b < |s.data| || !s.cfg.adaptive ==> Widened(s) == s.history
    ensures s.tail + s.cfg.b >= |s.data| && s.cfg.adaptive ==>
              Widened(s) == s.cfg.b || Widened(s) - s.history == s.cfg.b / 2
    ensures s.tail + s.cfg.b >= |s.data| && s.cfg.adaptive && s.history + s.cfg.b / 2 <= s.cfg.b ==>
              Widened(s) == s.history + s.cfg.b / 2
  {
  }

  /** A dequeue that starts on a ring that is not empty, and has not found a full slot up to state `i`, has
      probed, and halved its batch, at most floor(log2(history)) + 1 times, or once if the history is 0; the
      history is what `backtracking` set it to, and stays within the batch size. */
  lemma HalvingsBounded(r: seq<State>, acts: seq<Action>, j: nat, i: nat)
    requires IsRun(r, acts) && RoomForBatch(r[0].cfg) && r[0].cfg.consBatch
    requires j < i < |r| && acts[j].Dequeue? && |r[j].consumed| < |r[j].produced|
    requires forall m | j < m <= i :: r[m].c.CProbe?
    ensures Probes(acts, j + 1, i) <= AtMost(Widened(r[j]))
    ensures Widened(r[j]) > 0 && Probes(acts, j + 1, i) > 0 ==> Pow2(Probes(acts, j + 1, i) - 1) <= Widened(r[j])
    ensures Widened(r[j]) <= r[j].cfg.b
  {
    hide Inv, Widened, AtMost, Pow2, Probes, Reach, Halved;
    RunInv(r, acts, i);
    RunInv(r, acts, j);
    BatchIsHalved(r, acts, j, i);
    ProbedAtMost(r[i]);
    PowBound(Widened(r[j]), Probes(acts, j + 1, i));
  }

  lemma ProbedAtMost(s: State)
    requires Inv(s) && s.c.CProbe? && s.cfg.consBatch && s.c.had
    ensures s.c.halvings <= AtMost(s.history) && s.history <= s.cfg.b
  {
    hide RingOk, ProducerOk;
  }

  lemma PowBound(history: nat, n: nat)
    requires n <= AtMost(history)
    ensures history > 0 && n > 0 ==> Pow2(n - 1) <= history
  {
    if history > 0 && n > 0 {
      HalvingsIsLog(history);
      PowMono(n - 1, Halvings(history) - 1);
    }
  }
}
