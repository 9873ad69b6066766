/** The single-producer, single-consumer ring of benchmark/nonblocking/BQueue, in all its compile-time
    variants, for any batch size b and ring size k * b.

    Every access to `data` is one step; the other fields belong to one side.  `produced`, `consumed`,
    `grantedTo` and `readyTo` (the counts that `batch_head` and `batch_tail` stand for), and the parts
    `halvings` and `had` of a probe are history variables. */
module BQueue {
  datatype Config = Config(b: nat, k: nat, prodBatch: bool, consBatch: bool, backtracking: bool, adaptive: bool)

  datatype Producer =
    | PIdle
    | PProbe(v: int, at: nat)        // looks at data[at]
    | PWrite(v: int)
    | PDone(ok: bool)

  datatype Consumer =
    | CIdle
    | CProbe(at: nat, batch: nat, halvings: nat, had: bool)
    | CRead
    | CClear(v: int)
    | CDone(ok: bool, v: int)

  datatype State = State(
    cfg: Config,
    data: seq<int>,
    head: nat, batchHead: nat,
    tail: nat, batchTail: nat, history: nat,
    p: Producer, c: Consumer,
    produced: seq<int>, consumed: seq<int>, grantedTo: nat, readyTo: nat)

  datatype Action =
    | Enqueue(v: int) | ProbeHead | Write | EnqueueReturns
    | Dequeue | ProbeTail | Read | Clear | DequeueReturns

  function Size(cfg: Config): nat { cfg.k * cfg.b }

  /** `queue_init`. */
  ghost predicate Init(s: State) {
    && s.cfg.b > 0 && s.cfg.k > 0
    && |s.data| == Size(s.cfg) && (forall i | 0 <= i < |s.data| :: s.data[i] == 0)
    && s.head == s.batchHead == s.tail == s.batchTail == 0
    && s.history == (if s.cfg.consBatch then s.cfg.b else 0)
    && s.p.PIdle? && s.c.CIdle?
    && s.produced == s.consumed == [] && s.grantedTo == s.readyTo == 0
  }

  /** The index `d` after `i`, or 0 at the end of the ring. */
  function Ahead(i: nat, d: nat, size: nat): nat { if i + d >= size then 0 else i + d }

  // ------------------------------------------------------------ producer

  ghost predicate DoEnqueue(s: State, s': State, v: int) {
    && s.p.PIdle? && v != 0
    && s' == s.(p :=
         if !s.cfg.prodBatch then PProbe(v, s.head)
         else if s.head == s.batchHead then PProbe(v, Ahead(s.head, s.cfg.b, |s.data|))
         else PWrite(v))
  }

  ghost predicate DoProbeHead(s: State, s': State) {
    && s.p.PProbe? && s.p.at < |s.data|
    && s' ==
         if s.data[s.p.at] != 0 then s.(p := PDone(false))
         else if s.cfg.prodBatch then
           s.(batchHead := s.p.at, grantedTo := s.grantedTo + s.cfg.b, p := PWrite(s.p.v))
         else s.(p := PWrite(s.p.v))
  }

  ghost predicate DoWrite(s: State, s': State) {
    && s.p.PWrite? && s.head < |s.data|
    && s' == s.(data := s.data[s.head := s.p.v], head := Ahead(s.head, 1, |s.data|),
                produced := s.produced + [s.p.v], p := PDone(true))
  }

  ghost predicate DoEnqueueReturns(s: State, s': State) {
    s.p.PDone? && s' == s.(p := PIdle)
  }

  // ------------------------------------------------------------ consumer

  /** `batch_history` at the start of `backtracking`. */
  function Widened(s: State): nat {
    if s.cfg.adaptive && s.tail + s.cfg.b >= |s.data| && s.history < s.cfg.b then
      if s.cfg.b < s.history + s.cfg.b / 2 then s.cfg.b else s.history + s.cfg.b / 2
    else s.history
  }

  ghost predicate DoDequeue(s: State, s': State) {
    && s.c.CIdle?
    && var had := |s.consumed| < |s.produced|;
       s' ==
         if !s.cfg.consBatch then s.(c := CProbe(s.tail, 0, 0, had))
         else if s.tail == s.batchTail then
           s.(history := Widened(s), c := CProbe(Ahead(s.tail, s.cfg.b, |s.data|), Widened(s), 0, had))
         else s.(c := CRead)
  }

  /** How far ahead of `tail` an index is, but at least one. */
  function Distance(s: State, at: nat): nat {
    if at == s.tail then 1
    else if at > s.tail then at - s.tail
    else if at + |s.data| >= s.tail then at + |s.data| - s.tail
    else 0
  }

  ghost predicate DoProbeTail(s: State, s': State) {
    && s.c.CProbe? && s.c.at < |s.data|
    && var pc := s.c;
       s' ==
         if !s.cfg.consBatch then s.(c := if s.data[pc.at] == 0 then CDone(false, 0) else CRead)
         else if s.data[pc.at] != 0 then
           s.(history := if s.cfg.backtracking && s.cfg.adaptive then pc.batch else s.history,
              batchTail := if pc.at == s.tail then Ahead(pc.at, 1, |s.data|) else pc.at,
              readyTo := s.readyTo + Distance(s, pc.at), c := CRead)
         else if s.cfg.backtracking then
           s.(c := CProbe(Ahead(s.tail, pc.batch / 2, |s.data|), pc.batch / 2, pc.halvings + 1, pc.had))
         else s.(c := CDone(false, 0))
  }

  ghost predicate DoRead(s: State, s': State) {
    s.c.CRead? && s.tail < |s.data| && s' == s.(c := CClear(s.data[s.tail]))
  }

  ghost predicate DoClear(s: State, s': State) {
    && s.c.CClear? && s.tail < |s.data|
    && s' == s.(data := s.data[s.tail := 0], tail := Ahead(s.tail, 1, |s.data|),
                consumed := s.consumed + [s.c.v], c := CDone(true, s.c.v))
  }

  ghost predicate DoDequeueReturns(s: State, s': State) {
    s.c.CDone? && s' == s.(c := CIdle)
  }

  ghost predicate Step(s: State, s': State, a: Action) {
    match a
    case Enqueue(v) => DoEnqueue(s, s', v)
    case ProbeHead => DoProbeHead(s, s')
    case Write => DoWrite(s, s')
    case EnqueueReturns => DoEnqueueReturns(s, s')
    case Dequeue => DoDequeue(s, s')
    case ProbeTail => DoProbeTail(s, s')
    case Read => DoRead(s, s')
    case Clear => DoClear(s, s')
    case DequeueReturns => DoDequeueReturns(s, s')
  }

  ghost predicate IsRun(r: seq<State>, acts: seq<Action>) {
    && |r| > 0 && |acts| == |r| - 1
    && Init(r[0])
    && (forall i | 0 <= i < |acts| :: Step(r[i], r[i + 1], acts[i]))
  }
}
