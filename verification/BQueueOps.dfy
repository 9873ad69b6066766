/** The functions of fifo.c as methods on the array, one thread at a time.  Each carries the steps of the
    model `BQueue` out, so what is proved there holds of it. */
module BQueueOps {
  import opened BQueue
  import opened BQueueBacktracking
  import opened BQueueProof
  import opened ModArith

  class Ring {
    const cfg: Config
    const data: array<int>
    var head: nat
    var batchHead: nat
    var tail: nat
    var batchTail: nat
    var history: nat
    /** The state of the model. */
    ghost var st: State

    ghost predicate Coupled()
      reads this, data
    {
      && st.cfg == cfg && st.data == data[..] && st.head == head && st.batchHead == batchHead
      && st.tail == tail && st.batchTail == batchTail && st.history == history
    }

    ghost predicate Valid()
      reads this, data
    {
      Coupled() && Inv(st) && st.p.PIdle? && st.c.CIdle?
    }

    ghost function Contents(): seq<int>
      reads this
    {
      if |st.consumed| <= |st.produced| then st.produced[|st.consumed|..] else []
    }

    /** `queue_init`. */
    constructor (cfg: Config)
      requires cfg.b > 0 && cfg.k > 0 && RoomForBatch(cfg)
      ensures Valid() && Contents() == [] && this.cfg == cfg && fresh(data)
    {
      this.cfg := cfg;
      data := new int[cfg.k * cfg.b](_ => 0);
      head, batchHead, tail, batchTail := 0, 0, 0, 0;
      history := if cfg.consBatch then cfg.b else 0;
      new;
      st := State(cfg, data[..], 0, 0, 0, 0, history, PIdle, CIdle, [], [], 0, 0);
      InitInv(st);
    }

    /** The fields the producer does not touch when it looks for room. */
    twostate predicate SameQueue()
      reads this
    {
      && st.produced == old(st.produced) && st.consumed == old(st.consumed) && st.c == old(st.c)
    }

    /** A step of the model that changes no array element. */
    ghost method Take(s': State, a: Action)
      requires Inv(st) && Step(st, s', a)
      modifies `st
      ensures st == s' && Inv(st)
    {
      StepInv(st, s', a);
      st := s';
    }

    /** The first half of `enqueue`: look for room, one slot or one batch ahead. */
    method Reserve(v: int) returns (ok: bool)
      requires Valid() && v != 0
      modifies `batchHead, `st
      ensures Coupled() && Inv(st) && SameQueue() && (if ok then st.p == PWrite(v) else st.p.PIdle?)
      ensures !cfg.prodBatch ==> (ok <==> |st.produced| - |st.consumed| < data.Length)
      ensures cfg.prodBatch && !ok ==> |st.produced| - |st.consumed| + cfg.b >= data.Length
    {
      hide Inv, Widened, Distance;
      if cfg.prodBatch && head != batchHead {
        Take(st.(p := PWrite(v)), BQueue.Enqueue(v));
        return true;
      }
      var at := head;
      if cfg.prodBatch {
        at := head + cfg.b;
        if at >= data.Length {
          at := 0;
        }
      }
      Take(st.(p := PProbe(v, at)), BQueue.Enqueue(v));
      ProbeMeans(st);
      if data[at] != 0 {
        Take(st.(p := PDone(false)), ProbeHead);
        Take(st.(p := PIdle), EnqueueReturns);
        return false;
      }
      if cfg.prodBatch {
        Take(st.(batchHead := at, grantedTo := st.grantedTo + cfg.b, p := PWrite(v)), ProbeHead);
        batchHead := at;
      } else {
        Take(st.(p := PWrite(v)), ProbeHead);
      }
      ok := true;
    }

    /** `enqueue`: appends, or fails because the slot, or the batch, it looks at is not free. */
    method Enqueue(v: int) returns (ok: bool)
      requires Valid() && v != 0
      modifies this, data
      ensures Valid()
      ensures Contents() == if ok then old(Contents()) + [v] else old(Contents())
      ensures !cfg.prodBatch ==> (ok <==> |old(Contents())| < data.Length)
      ensures cfg.prodBatch && !ok ==> |old(Contents())| + cfg.b >= data.Length
    {
      hide Inv, Widened, Distance;
      Bounds(st);
      ok := Reserve(v);
      if ok {
        Bounds(st);
        Take(st.(data := st.data[head := v], head := Ahead(head, 1, data.Length), produced := st.produced + [v],
                 p := PDone(true)), Write);
        data[head] := v;
        head := head + 1;
        if head >= data.Length {
          head := 0;
        }
        Take(st.(p := PIdle), EnqueueReturns);
      }
    }

    /** Between the steps of `backtracking`. */
    ghost predicate Probing(at: nat, batch: nat, halvings: nat)
      reads this, data
    {
      && Coupled() && Inv(st) && cfg.consBatch && st.p.PIdle? && at < data.Length
      && st.c == CProbe(at, batch, halvings, |st.consumed| < |st.produced|)
    }

    twostate predicate SameValues()
      reads this
    {
      st.produced == old(st.produced) && st.consumed == old(st.consumed)
    }

    twostate predicate SameRing()
      reads this
    {
      st.data == old(st.data) && st.tail == old(st.tail) && st.cfg == old(st.cfg)
    }

    /** The start of `backtracking`: one batch ahead, or 0 at the end of the ring, where the adaptive variant
        widens its history. */
    method LookAhead() returns (at: nat)
      requires Coupled() && Inv(st) && st.p.PIdle? && st.c.CIdle? && cfg.consBatch && tail == batchTail
      modifies `history, `st
      ensures Probing(at, history, 0) && SameValues() && SameRing() && history == Widened(old(st))
      ensures at == Ahead(tail, cfg.b, data.Length)
    {
      hide Inv, Distance;
      at := tail + cfg.b;
      if at >= data.Length {
        at := 0;
        if cfg.adaptive && history < cfg.b {
          history := if cfg.b < history + cfg.b / 2 then cfg.b else history + cfg.b / 2;
        }
      }
      Take(st.(history := history, c := CProbe(at, history, 0, |st.consumed| < |st.produced|)), BQueue.Dequeue);
      ProbeFacts(st);
    }

    /** The loop of `backtracking`: halves the distance until it finds a full slot, and stops at the first.  On an
        empty ring it would not end. */
    method Halve(at0: nat) returns (at: nat, batch: nat, ghost halvings: nat)
      requires Probing(at0, history, 0) && cfg.backtracking && |st.consumed| < |st.produced|
      modifies `st
      ensures Probing(at, batch, halvings) && SameValues() && SameRing() && data[at] != 0
      ensures batch == Halved(history, halvings) && FirstFull(old(st), history, halvings)
      ensures halvings <= AtMost(history)
    {
      hide Inv, Distance, Widened, Reach, Halved, ZeroAt, FirstFull, AtMost;
      at, batch, halvings := at0, history, 0;
      HalvedNext(history, 0);
      ProbesAt(st, history);
      while data[at] == 0
        invariant Probing(at, batch, halvings) && SameValues() && SameRing()
        invariant batch == Halved(history, halvings)
        invariant forall m | 0 <= m < halvings :: ZeroAt(st, history, m)
        decreases halvings == 0, batch
      {
        BatchShrinks(st);
        ProbesAt(st, history);
        HalvedNext(history, halvings);
        ghost var before := st;
        batch := batch / 2;
        at := tail + batch;
        if at >= data.Length {
          at := 0;
        }
        halvings := halvings + 1;
        Take(st.(c := CProbe(at, batch, halvings, true)), ProbeTail);
        ProbeFacts(st);
        SameZeros(before, st, history);
      }
      ProbeFacts(st);
      ProbesAt(st, history);
      Found(old(st), st, history, halvings);
    }

    /** The end of `backtracking`: the slots up to the full one may be taken, or just that one. */
    method Grant(at: nat, batch: nat, ghost halvings: nat)
      requires Probing(at, batch, halvings) && data[at] != 0
      modifies `batchTail, `history, `st
      ensures Coupled() && Inv(st) && SameValues() && st.p.PIdle? && st.c.CRead? && tail < data.Length
      ensures batchTail == (tail + Granted(tail, if halvings == 0 then cfg.b else batch, data.Length)) % data.Length
      ensures history == if cfg.backtracking && cfg.adaptive then batch else old(history)
    {
      hide Inv, Widened;
      ghost var far := Distance(st, at);
      var to := at;
      if to == tail {
        to := if to + 1 >= data.Length then 0 else to + 1;
      }
      ghost var next := if cfg.backtracking && cfg.adaptive then batch else history;
      ghost var before := st;
      Take(st.(history := next, batchTail := to, readyTo := st.readyTo + far, c := CRead), ProbeTail);
      hide Distance;
      SuccessGrants(before, st);
      if cfg.backtracking && cfg.adaptive {
        history := batch;
      }
      batchTail := to;
    }

    /** `backtracking`: without the variant of that name it looks once, a batch ahead; with it, on a ring that is not
        empty, it stops at the first full slot after at most `AtMost (batch_history)` halvings.  It leaves in
        `batch_tail` how far the slot found lies ahead, and the adaptive variant remembers the batch. */
    method Backtracking() returns (found: bool, ghost halvings: nat)
      requires Coupled() && Inv(st) && st.p.PIdle? && st.c.CIdle? && cfg.consBatch && tail == batchTail
      requires cfg.backtracking ==> |st.consumed| < |st.produced|
      modifies `batchTail, `history, `st
      ensures Coupled() && Inv(st) && SameValues() && st.p.PIdle?
      ensures if found then st.c.CRead? else st.c.CIdle? && !cfg.backtracking
      ensures halvings <= AtMost(Widened(old(st))) && (!cfg.backtracking ==> halvings == 0)
      ensures found <==> FirstFull(old(st), Widened(old(st)), halvings)
      ensures tail < data.Length
      ensures found ==>
                var d := Reach(cfg, Widened(old(st)), halvings);
                batchTail == (tail + Granted(tail, d, data.Length)) % data.Length
      ensures history == if found && cfg.backtracking && cfg.adaptive then Halved(Widened(old(st)), halvings)
                         else Widened(old(st))
    {
      hide Inv, Distance, Widened, AtMost, Granted;
      Bounds(st);
      ghost var st0 := st;
      var at := LookAhead();
      var batch := history;
      halvings := 0;
      assert Halved(history, 0) == history;
      if cfg.backtracking {
        ghost var st1 := st;
        at, batch, halvings := Halve(at);
        SameFirst(st0, st1, history, halvings);
      } else if data[at] == 0 {
        Take(st.(c := CDone(false, 0)), ProbeTail);
        Take(st.(c := CIdle), DequeueReturns);
        return false, halvings;
      }
      Grant(at, batch, halvings);
      found := true;
    }

    /** `dequeue`: takes the oldest value.  On an empty ring, the variant with backtracking would wait. */
    method Dequeue() returns (ok: bool, v: int)
      requires Valid()
      requires cfg.consBatch && cfg.backtracking && tail == batchTail ==> Contents() != []
      modifies this, data
      ensures Valid()
      ensures ok ==> v != 0 && old(Contents()) == [v] + Contents()
      ensures !ok ==> Contents() == old(Contents())
      ensures !cfg.consBatch ==> (ok <==> old(Contents()) != [])
      ensures cfg.consBatch && cfg.backtracking ==> ok
    {
      hide Inv, Distance, Widened;
      Bounds(st);
      ok, v := true, 0;
      if cfg.consBatch {
        if tail == batchTail {
          ghost var halvings;
          ok, halvings := Backtracking();
        } else {
          Take(st.(c := CRead), BQueue.Dequeue);
        }
      } else {
        Take(st.(c := CProbe(tail, 0, 0, |st.consumed| < |st.produced|)), BQueue.Dequeue);
        TailMeans(st);
        if data[tail] == 0 {
          Take(st.(c := CDone(false, 0)), ProbeTail);
          Take(st.(c := CIdle), DequeueReturns);
          ok := false;
        } else {
          Take(st.(c := CRead), ProbeTail);
        }
      }
      if ok {
        v := TakeOut();
      }
    }

    /** The second half of `dequeue`. */
    method TakeOut() returns (v: int)
      requires Coupled() && Inv(st) && st.p.PIdle? && st.c.CRead?
      modifies this, data
      ensures Valid() && v != 0 && old(Contents()) == [v] + Contents()
    {
      hide Inv, Distance, Widened;
      Bounds(st);
      v := data[tail];
      Take(st.(c := CClear(v)), Read);
      Bounds(st);
      Take(st.(data := st.data[tail := 0], tail := Ahead(tail, 1, data.Length), consumed := st.consumed + [v],
               c := CDone(true, v)), Clear);
      data[tail] := 0;
      tail := tail + 1;
      if tail >= data.Length {
        tail := 0;
      }
      Take(st.(c := CIdle), DequeueReturns);
    }
  }

  /** The probe after `n` halvings of the batch `w` looks at an empty slot. */
  ghost predicate ZeroAt(s: State, w: nat, n: nat) {
    var at := Ahead(s.tail, Reach(s.cfg, w, n), |s.data|);
    at < |s.data| && s.data[at] == 0
  }

  /** The probe after `n` halvings is the first one that looks at a full slot. */
  ghost predicate FirstFull(s: State, w: nat, n: nat) {
    (forall m | 0 <= m < n :: ZeroAt(s, w, m)) && !ZeroAt(s, w, n)
  }

  lemma HalvedNext(w: nat, n: nat)
    ensures Halved(w, 0) == w && Halved(w, n + 1) == Halved(w, n) / 2
  {
  }

  lemma ProbesAt(s: State, w: nat)
    requires Inv(s) && s.c.CProbe? && s.cfg.consBatch && s.c.batch == Halved(w, s.c.halvings)
    ensures s.c.at < |s.data| && (s.data[s.c.at] == 0 <==> ZeroAt(s, w, s.c.halvings))
  {
    ProbeFacts(s);
  }

  lemma SameZeros(s: State, s': State, w: nat)
    requires s'.data == s.data && s'.tail == s.tail && s'.cfg == s.cfg
    ensures forall m: nat :: ZeroAt(s', w, m) <==> ZeroAt(s, w, m)
  {
  }

  lemma Found(s: State, s': State, w: nat, n: nat)
    requires s'.data == s.data && s'.tail == s.tail && s'.cfg == s.cfg
    requires (forall m | 0 <= m < n :: ZeroAt(s', w, m)) && !ZeroAt(s', w, n)
    ensures FirstFull(s, w, n)
  {
    SameZeros(s, s', w);
  }

  lemma SameFirst(s: State, s': State, w: nat, n: nat)
    requires s'.data == s.data && s'.tail == s.tail && s'.cfg == s.cfg
    ensures FirstFull(s, w, n) <==> FirstFull(s', w, n)
  {
    SameZeros(s, s', w);
  }

  lemma Bounds(s: State)
    requires Inv(s)
    ensures s.head < |s.data| && s.tail < |s.data| && |s.data| > 0 && |s.consumed| <= |s.produced|
    ensures s.c.CClear? ==> |s.consumed| < |s.produced| && s.c.v == s.produced[|s.consumed|] != 0
    ensures |s.produced| - |s.consumed| <= |s.data|
  {
  }

  lemma ProbeMeans(s: State)
    requires Inv(s) && s.p.PProbe?
    ensures s.p.at < |s.data|
    ensures !s.cfg.prodBatch ==> (s.data[s.p.at] == 0 <==> |s.produced| - |s.consumed| < |s.data|)
    ensures s.cfg.prodBatch && s.data[s.p.at] != 0 ==> |s.produced| - |s.consumed| + s.cfg.b >= |s.data|
  {
    if s.cfg.prodBatch {
      BatchFree(s);
    } else if Made(s) < Taken(s) + |s.data| {
      SlotEmpty(s, Made(s));
    } else {
      TurnMod(Taken(s), |s.data|);
      SlotEmpty(s, Taken(s));
    }
  }

  lemma TailMeans(s: State)
    requires Inv(s)
    ensures s.tail < |s.data| && (s.data[s.tail] == 0 <==> |s.consumed| == |s.produced|)
  {
    SlotEmpty(s, Taken(s));
  }

  lemma ProbeFacts(s: State)
    requires Inv(s) && s.c.CProbe? && s.cfg.consBatch
    ensures s.c.at < |s.data| && s.tail < |s.data|
    ensures s.c.at == Ahead(s.tail, if s.c.halvings == 0 then s.cfg.b else s.c.batch, |s.data|)
    ensures s.c.had ==> s.c.halvings <= AtMost(s.history)
  {
  }

  /** On a ring that is not empty, a probe that fails has a batch left to halve. */
  lemma BatchShrinks(s: State)
    requires Inv(s) && s.c.CProbe? && s.cfg.consBatch && s.c.had && s.c.at < |s.data| && s.data[s.c.at] == 0
    ensures s.c.halvings > 0 ==> s.c.batch > 0
  {
    if s.c.halvings > 0 && s.c.batch == 0 {
      TailMeans(s);
    }
  }
}
