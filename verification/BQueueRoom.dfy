/** The ring keeps its values exactly when the batched producer has room for two batches. */
module BQueueRoom {
  import opened BQueue
  import opened BQueueProof

  ghost predicate Reachable(s: State) {
    exists r: seq<State>, acts: seq<Action> :: IsRun(r, acts) && r[|r| - 1] == s
  }

  lemma Reached(s: State, s': State, a: Action)
    requires Reachable(s) && Step(s, s', a)
    ensures Reachable(s')
  {
    var r: seq<State>, acts: seq<Action> :| IsRun(r, acts) && r[|r| - 1] == s;
    var r', acts' := r + [s'], acts + [a];
    hide Init;
    forall i | 0 <= i < |acts'|
      ensures Step(r'[i], r'[i + 1], acts'[i])
    {
      if i < |acts| {
        assert Step(r[i], r[i + 1], acts[i]);
      }
    }
    hide Step;
    assert IsRun(r', acts');
  }

  /** No slot that still holds a value is ever about to be written. */
  ghost predicate NeverOverwrites(cfg: Config) {
    forall s: State | Reachable(s) && s.cfg == cfg && s.p.PWrite? && s.head < |s.data| :: s.data[s.head] == 0
  }

  lemma RoomSuffices(s: State)
    requires Reachable(s) && RoomForBatch(s.cfg) && s.p.PWrite?
    ensures s.head < |s.data| && s.data[s.head] == 0
  {
    var r: seq<State>, acts: seq<Action> :| IsRun(r, acts) && r[|r| - 1] == s;
    SameConfigRun(r, acts, |r| - 1);
    RunInv(r, acts, |r| - 1);
    hide IsRun;
    SlotEmpty(s, Made(s));
  }

  lemma {:induction false} SameConfigRun(r: seq<State>, acts: seq<Action>, i: nat)
    requires IsRun(r, acts) && i < |r|
    ensures r[i].cfg == r[0].cfg
  {
    if i > 0 {
      SameConfigRun(r, acts, i - 1);
      assert Step(r[i - 1], r[i], acts[i - 1]);
      hide IsRun;
      SameConfig(r[i - 1], r[i], acts[i - 1]);
    }
  }

  // ------------------------------------------------------------ one batch is not enough

  /** A ring of one batch, two slots or more, and a batched producer. */
  predicate Tight(cfg: Config) { cfg.prodBatch && cfg.k == 1 && cfg.b >= 2 }

  function Ones(n: nat): seq<int> { seq(n, i => 1) }

  function Zeros(n: nat): seq<int> { seq(n, i => 0) }

  /** After `j` values, none consumed. */
  function Filled(cfg: Config, j: nat): State
    requires Tight(cfg) && j <= cfg.b
  {
    State(cfg, Ones(j) + Zeros(cfg.b - j), Ahead(0, j, cfg.b), 0, 0, 0, if cfg.consBatch then cfg.b else 0,
          PIdle, CIdle, Ones(j), [], if j == 0 then 0 else cfg.b, 0)
  }

  lemma {:induction false} FillUp(cfg: Config, j: nat)
    requires Tight(cfg) && j <= cfg.b
    ensures Reachable(Filled(cfg, j))
  {
    if j == 0 {
      var s := Filled(cfg, 0);
      assert IsRun([s], []);
      assert [s][|[s]| - 1] == s;
    } else {
      FillUp(cfg, j - 1);
      FillOne(cfg, j - 1);
    }
  }

  lemma FillOne(cfg: Config, j: nat)
    requires Tight(cfg) && j < cfg.b && Reachable(Filled(cfg, j))
    ensures Reachable(Filled(cfg, j + 1))
  {
    hide Reachable;
    var s := Filled(cfg, j);
    var s2 := s.(p := PWrite(1), grantedTo := cfg.b);
    if j == 0 {
      var s1 := s.(p := PProbe(1, 0));
      Reached(s, s1, Enqueue(1));
      Reached(s1, s2, ProbeHead);
    } else {
      Reached(s, s2, Enqueue(1));
    }
    var s3 := s2.(data := s2.data[j := 1], head := Ahead(j, 1, cfg.b), produced := s2.produced + [1], p := PDone(true));
    Reached(s2, s3, Write);
    var s4 := s3.(p := PIdle);
    Reached(s3, s4, EnqueueReturns);
    assert s4.data == Ones(j + 1) + Zeros(cfg.b - (j + 1)) && s4.produced == Ones(j + 1);
    assert s4 == Filled(cfg, j + 1);
  }

  /** The first value taken out again. */
  function OneOut(cfg: Config): State
    requires Tight(cfg)
  {
    var s := Filled(cfg, cfg.b);
    s.(data := s.data[0 := 0], tail := 1, batchTail := if cfg.consBatch then 1 else 0,
       readyTo := if cfg.consBatch then 1 else 0, consumed := [1])
  }

  lemma TakeOne(cfg: Config)
    requires Tight(cfg)
    ensures Reachable(OneOut(cfg))
  {
    var s := Filled(cfg, cfg.b);
    FillUp(cfg, cfg.b);
    hide Reachable;
    var s1 := s.(c := CProbe(0, if cfg.consBatch then cfg.b else 0, 0, true));
    Reached(s, s1, Dequeue);
    var s2 := s.(c := CRead, batchTail := if cfg.consBatch then 1 else 0, readyTo := if cfg.consBatch then 1 else 0);
    Reached(s1, s2, ProbeTail);
    var s3 := s2.(c := CClear(1));
    Reached(s2, s3, Read);
    var s4 := s3.(data := s3.data[0 := 0], tail := 1, consumed := [1], c := CDone(true, 1));
    Reached(s3, s4, Clear);
    Reached(s4, OneOut(cfg), DequeueReturns);
  }

  /** With one slot free, the producer is granted a whole batch again and reaches a slot that is full. */
  lemma Overwrites(cfg: Config) returns (s: State)
    requires Tight(cfg)
    ensures Reachable(s) && s.cfg == cfg && s.p.PWrite? && s.head < |s.data| && s.data[s.head] == 1
    ensures |s.produced| - |s.consumed| == |s.data|
  {
    var s0 := OneOut(cfg);
    TakeOne(cfg);
    hide Reachable;
    var s1 := s0.(p := PProbe(1, 0));
    Reached(s0, s1, Enqueue(1));
    var s2 := s0.(p := PWrite(1), grantedTo := cfg.b + cfg.b);
    Reached(s1, s2, ProbeHead);
    var s3 := s2.(data := s2.data[0 := 1], head := 1, produced := s2.produced + [1], p := PDone(true));
    Reached(s2, s3, Write);
    var s4 := s3.(p := PIdle);
    Reached(s3, s4, EnqueueReturns);
    s := s4.(p := PWrite(1));
    Reached(s4, s, Enqueue(1));
  }

  /** Values are never overwritten, in all runs, exactly when the ring has room for two batches, or the
      producer looks at each slot. */
  lemma NeverOverwritesIff(cfg: Config)
    requires cfg.b > 0 && cfg.k > 0
    ensures NeverOverwrites(cfg) <==> RoomForBatch(cfg)
  {
    if RoomForBatch(cfg) {
      forall s: State | Reachable(s) && s.cfg == cfg && s.p.PWrite? && s.head < |s.data|
        ensures s.data[s.head] == 0
      {
        RoomSuffices(s);
      }
    } else {
      var s := Overwrites(cfg);
    }
  }
}
