/** The values callers see: what `Enqueue` is given gets into the queue, and what `Dequeue` returns comes out of
    it, at a step of that very call. */
module MsQueueValues {
  import opened MsQueue
  import opened MsQueueProof
  import opened MsQueueFifo
  import opened MsQueueCalls

  // ------------------------------------------------------------ the argument of Enqueue

  /** The node of the enqueuer holds the value `v`. */
  ghost predicate Carries(s: State, p: nat, v: int) {
    && p < |s.threads| && Enqueuing(s.threads[p].pc)
    && s.threads[p].pc.n in s.nodes && s.nodes[s.threads[p].pc.n].elem == v
  }

  /** `p` called `Enqueue` with `v` at step `b` and has been in that call up to state `i`. */
  ghost predicate SameArgument(r: seq<State>, who: seq<nat>, acts: seq<Action>, b: nat, i: nat, p: nat, v: int)
    requires |who| == |acts|
  {
    && b < i < |r| && i <= |who| && who[b] == p && acts[b].EnqStart? && acts[b].v == v
    && (forall k | b < k <= i :: Carries(r[k], p, v))
    && (forall k | b < k < i :: !(who[k] == p && acts[k].EnqStart?))
  }

  lemma CarriesMover(s: State, s': State, p: nat, a: Action, v: int)
    requires Step(s, s', p, a) && EnqStep(a) && Carries(s', p, v)
    ensures if a.EnqStart? then a.v == v else Carries(s, p, v)
  {
  }

  lemma DequeuerCarriesNone(s: State, s': State, p: nat, a: Action, v: int)
    requires Step(s, s', p, a) && !EnqStep(a)
    ensures !Carries(s', p, v)
  {
  }

  lemma ElementsKept(s: State, s': State, q: nat, a: Action)
    requires Step(s, s', q, a)
    ensures forall x | x in s.nodes :: x in s'.nodes && s'.nodes[x].elem == s.nodes[x].elem
  {
  }

  /** Every enqueuer owns a node. */
  lemma OwnsNode(s: State, p: nat)
    requires Inv(s) && p < |s.threads| && Enqueuing(s.threads[p].pc)
    ensures s.threads[p].pc.n in s.nodes
  {
    assert PcOk(s, p);
  }

  lemma CarriesStep(s: State, s': State, q: nat, a: Action, p: nat, v: int)
    requires Inv(s) && Step(s, s', q, a) && Carries(s', p, v)
    ensures if q == p && a.EnqStart? then a.v == v else Carries(s, p, v)
  {
    hide Step, Inv, Enqueuing;
    StepThreads(s, s', q, a);
    if q != p {
      StaysStill(s, s', q, a, p);
      OwnsNode(s, p);
      ElementsKept(s, s', q, a);
    } else if EnqStep(a) {
      CarriesMover(s, s', p, a, v);
    } else {
      DequeuerCarriesNone(s, s', p, a, v);
    }
  }

  lemma StartsIdle(s: State, p: nat, v: int)
    requires Init(s)
    ensures !Carries(s, p, v)
  {
  }

  lemma {:induction false} ArgumentOf(r: seq<State>, who: seq<nat>, acts: seq<Action>, i: nat, p: nat, v: int)
    returns (b: nat)
    requires IsRun(r, who, acts) && i < |r| && Carries(r[i], p, v)
    ensures SameArgument(r, who, acts, b, i, p, v)
    decreases i
  {
    hide Step, Inv, Carries;
    if i == 0 {
      StartsIdle(r[0], p, v);
      assert false;
    }
    assert Step(r[i - 1], r[i], who[i - 1], acts[i - 1]);
    RunInv(r, who, acts, i - 1);
    CarriesStep(r[i - 1], r[i], who[i - 1], acts[i - 1], p, v);
    if who[i - 1] == p && acts[i - 1].EnqStart? {
      b := i - 1;
    } else {
      b := ArgumentOf(r, who, acts, i - 1, p, v);
    }
  }

  // ------------------------------------------------------------ Enqueue

  /** `p` has linked its node. */
  predicate HasLinked(pc: Pc) { pc.EnqSwing? || pc.EnqReturn? }

  lemma LinkMover(s: State, s': State, p: nat, a: Action)
    requires Step(s, s', p, a) && EnqStep(a) && !a.LinkOk? && HasLinked(s'.threads[p].pc)
    ensures HasLinked(s.threads[p].pc) && s.threads[p].pc.n == s'.threads[p].pc.n
  {
  }

  lemma DequeuerLinksNone(s: State, s': State, p: nat, a: Action)
    requires Step(s, s', p, a) && !EnqStep(a)
    ensures p < |s'.threads| && !HasLinked(s'.threads[p].pc)
  {
  }

  lemma {:induction false} LinkedBy(r: seq<State>, who: seq<nat>, acts: seq<Action>, i: nat, p: nat) returns (j: nat)
    requires IsRun(r, who, acts) && i < |r| && p < |r[i].threads| && HasLinked(r[i].threads[p].pc)
    ensures j < i && who[j] == p && acts[j].LinkOk?
    ensures forall k | j < k <= i ::
              p < |r[k].threads| && HasLinked(r[k].threads[p].pc) && r[k].threads[p].pc.n == r[i].threads[p].pc.n
    decreases i
  {
    hide Step;
    assert i > 0;
    var s, s', q, a := r[i - 1], r[i], who[i - 1], acts[i - 1];
    assert Step(s, s', q, a);
    StepThreads(s, s', q, a);
    if q == p && a.LinkOk? {
      j := i - 1;
    } else {
      if q != p {
        StaysStill(s, s', q, a, p);
      } else if EnqStep(a) {
        LinkMover(s, s', p, a);
      } else {
        DequeuerLinksNone(s, s', p, a);
      }
      j := LinkedBy(r, who, acts, i - 1, p);
    }
  }

  lemma LinkerCarries(s: State, s': State, p: nat)
    requires Inv(s) && Step(s, s', p, LinkOk)
    ensures p < |s.threads| && s.threads[p].pc.EnqLink? && s.threads[p].pc.n in s.nodes
    ensures Carries(s, p, s.nodes[s.threads[p].pc.n].elem)
  {
    assert PcOk(s, p);
    hide PcOk;
  }

  /** Every `Enqueue` that returns has linked its argument behind all others at a step of that very call, whether
      the exchange is strong or weak. */
  lemma EnqueueLinks(r: seq<State>, who: seq<nat>, acts: seq<Action>, i: nat, p: nat) returns (b: nat, j: nat, v: int)
    requires IsRun(r, who, acts) && i < |r| && p < |r[i].threads| && r[i].threads[p].pc.EnqReturn?
    ensures b < j < i && SameArgument(r, who, acts, b, i, p, v) && who[j] == p && acts[j].LinkOk?
    ensures Inv(r[j]) && Inv(r[j + 1]) && Linked(r[j + 1]) == Linked(r[j]) + [v]
  {
    hide Step, Init, Inv, Linked, Swung, Carries;
    j := LinkedBy(r, who, acts, i, p);
    RunInv(r, who, acts, j);
    RunInv(r, who, acts, j + 1);
    RunInv(r, who, acts, i);
    assert Step(r[j], r[j + 1], who[j], acts[j]);
    LinkerCarries(r[j], r[j + 1], p);
    StepEffect(r[j], r[j + 1], p, acts[j]);
    v := r[j].nodes[r[j].threads[p].pc.n].elem;
    b := ArgumentOf(r, who, acts, j, p, v);
    StillCarries(r, who, acts, b, j, i, p, v);
  }

  lemma CarriesOn(s: State, s': State, q: nat, a: Action, p: nat, v: int)
    requires Inv(s) && Step(s, s', q, a) && Carries(s, p, v) && p < |s'.threads| && HasLinked(s'.threads[p].pc)
    ensures Carries(s', p, v) && !(q == p && a.EnqStart?)
  {
    hide Inv;
  }

  lemma {:induction false} StillCarries(r: seq<State>, who: seq<nat>, acts: seq<Action>,
                                        b: nat, j: nat, i: nat, p: nat, v: int)
    requires IsRun(r, who, acts) && b < j <= i < |r| && SameArgument(r, who, acts, b, j, p, v)
    requires forall k | j < k <= i :: p < |r[k].threads| && HasLinked(r[k].threads[p].pc)
    ensures SameArgument(r, who, acts, b, i, p, v)
    decreases i
  {
    hide Step, Inv, Carries;
    if j < i {
      StillCarries(r, who, acts, b, j, i - 1, p, v);
      RunInv(r, who, acts, i - 1);
      assert Step(r[i - 1], r[i], who[i - 1], acts[i - 1]);
      CarriesOn(r[i - 1], r[i], who[i - 1], acts[i - 1], p, v);
    }
  }

  lemma SwungBy(s: State, s': State, p: nat, a: Action)
    requires Inv(s) && Inv(s') && Step(s, s', p, a) && s'.l == s.l + 1
    ensures s'.l < |s'.order| && s'.order[s'.l] in s'.nodes && Swung(s') == Swung(s) + [s'.nodes[s'.order[s'.l]].elem]
  {
    SwingsIt(s, s', p, a);
    SwingFacts(s, s', p, a);
    hide Step;
    ValuesEnd(s.nodes, s.order, s.f + 1, s.l + 1);
  }

  lemma SwingsIt(s: State, s': State, p: nat, a: Action)
    requires Step(s, s', p, a) && s'.l == s.l + 1
    ensures Swings(a)
  {
  }

  lemma ReturnsAt(s: State, p: nat)
    requires Inv(s) && p < |s.threads| && s.threads[p].pc.EnqReturn? && !s.weak
    ensures var pc := s.threads[p].pc;
            pc.k <= s.l && pc.k < |s.order| && s.order[pc.k] == pc.n && LinkedAt(pc, pc.k)
  {
    assert PcOk(s, p);
  }

  lemma {:induction false} ElementsStay(r: seq<State>, who: seq<nat>, acts: seq<Action>, j: nat, i: nat)
    requires IsRun(r, who, acts) && j <= i < |r|
    ensures forall x | x in r[j].nodes :: x in r[i].nodes && r[i].nodes[x].elem == r[j].nodes[x].elem
    decreases i
  {
    hide Step;
    if j < i {
      ElementsStay(r, who, acts, j, i - 1);
      assert Step(r[i - 1], r[i], who[i - 1], acts[i - 1]);
      ElementsKept(r[i - 1], r[i], who[i - 1], acts[i - 1]);
    }
  }

  lemma CallerIsIdle(s: State, s': State, p: nat, a: Action)
    requires Step(s, s', p, a) && a.EnqStart?
    ensures p < |s.threads| && !Enqueuing(s.threads[p].pc)
  {
  }

  /** With a strong compare-and-exchange every `Enqueue` has a step inside its own call at which `Last` reached its
      node, so that the queue `Swung` grew by its argument then. */
  lemma EnqueueTakesEffect(r: seq<State>, who: seq<nat>, acts: seq<Action>, i: nat, p: nat)
    returns (b: nat, j: nat, v: int)
    requires IsRun(r, who, acts) && i < |r| && p < |r[i].threads| && r[i].threads[p].pc.EnqReturn? && !r[i].weak
    ensures b < j < i && SameArgument(r, who, acts, b, i, p, v)
    ensures Inv(r[j]) && Inv(r[j + 1]) && Swung(r[j + 1]) == Swung(r[j]) + [v]
  {
    hide Step, Init, Inv, Linked, Swung, Enqueuing, LinkedAt;
    var k;
    b, k, v := EnqueueLinks(r, who, acts, i, p);
    RunInv(r, who, acts, i);
    ReturnsAt(r[i], p);
    j := SwungAt(r, who, acts, i, p, r[i].threads[p].pc.k);
    RunInv(r, who, acts, j);
    RunInv(r, who, acts, j + 1);
    assert Step(r[j], r[j + 1], who[j], acts[j]);
    assert Step(r[b], r[b + 1], who[b], acts[b]);
    CallerIsIdle(r[b], r[b + 1], who[b], acts[b]);
    OrderKept(r, who, acts, j + 1, i);
    ElementsStay(r, who, acts, j + 1, i);
    hide IsRun;
    assert Carries(r[i], p, v);
    SwungBy(r[j], r[j + 1], who[j], acts[j]);
    assert r[j + 1].order[r[j + 1].l] == r[i].threads[p].pc.n;
  }

  /** A call of `Enqueue` ends only after its node is linked, and one of `Dequeue` only with an answer. */
  lemma CallsEnd(s: State, s': State, q: nat, a: Action, p: nat)
    requires Inv(s) && Step(s, s', q, a) && p < |s.threads|
    ensures p < |s'.threads|
    ensures Enqueuing(s.threads[p].pc) && !Enqueuing(s'.threads[p].pc) ==>
              q == p && s.threads[p].pc.EnqReturn? && s.threads[p].pc.n in s.order
    ensures Dequeuing(s.threads[p].pc) && !Dequeuing(s'.threads[p].pc) ==> q == p && s.threads[p].pc.DeqReturn?
  {
    hide Step, Inv, Enqueuing, Dequeuing;
    StepThreads(s, s', q, a);
    if q != p {
      StaysStill(s, s', q, a, p);
    } else if EnqStep(a) {
      EnqueueEnds(s, s', p, a);
    } else {
      DequeueEnds(s, s', p, a);
    }
  }

  lemma EnqueueEnds(s: State, s': State, p: nat, a: Action)
    requires Inv(s) && Step(s, s', p, a) && EnqStep(a)
    ensures Enqueuing(s.threads[p].pc) && !Enqueuing(s'.threads[p].pc) ==>
              s.threads[p].pc.EnqReturn? && s.threads[p].pc.n in s.order
    ensures !Dequeuing(s.threads[p].pc)
  {
    assert PcOk(s, p);
    hide Inv;
  }

  lemma DequeueEnds(s: State, s': State, p: nat, a: Action)
    requires Step(s, s', p, a) && !EnqStep(a)
    ensures Dequeuing(s.threads[p].pc) && !Dequeuing(s'.threads[p].pc) ==> s.threads[p].pc.DeqReturn?
    ensures !Enqueuing(s.threads[p].pc)
  {
  }

  // ------------------------------------------------------------ Dequeue

  predicate Answers(pc: Pc, elem: int) { pc.DeqReturn? && pc.ok && pc.elem == elem }

  lemma AnswerStep(s: State, s': State, q: nat, a: Action, p: nat, elem: int)
    requires Step(s, s', q, a) && p < |s'.threads| && Answers(s'.threads[p].pc, elem)
    ensures p < |s.threads|
    ensures if q == p && a.TakeOk? then s.threads[p].pc.DeqCas? && s.threads[p].pc.elem == elem
            else Answers(s.threads[p].pc, elem)
  {
    if p != q {
      StaysStill(s, s', q, a, p);
      hide Step;
    }
  }

  lemma AnswersDequeue(pc: Pc, elem: int)
    requires Answers(pc, elem)
    ensures Dequeuing(pc)
  {
  }

  /** True from `Dequeue`, with an element, means a step of that very call at which just this element was taken
      off the front of the queue, and off that of the elements `Last` has reached. */
  lemma {:induction false} DequeueTakesEffect(r: seq<State>, who: seq<nat>, acts: seq<Action>,
                                              i: nat, p: nat, elem: int)
    returns (j: nat)
    requires IsRun(r, who, acts) && i < |r| && p < |r[i].threads| && Answers(r[i].threads[p].pc, elem)
    ensures j < i && who[j] == p && SameDequeue(r, j, i, p) && Inv(r[j]) && Inv(r[j + 1])
    ensures Linked(r[j]) == [elem] + Linked(r[j + 1]) && Swung(r[j]) == [elem] + Swung(r[j + 1])
    decreases i
  {
    hide Step, Inv, Linked, Swung, Dequeuing, SameDequeue;
    assert i > 0;
    assert Step(r[i - 1], r[i], who[i - 1], acts[i - 1]);
    AnswerStep(r[i - 1], r[i], who[i - 1], acts[i - 1], p, elem);
    AnswersDequeue(r[i].threads[p].pc, elem);
    if who[i - 1] == p && acts[i - 1].TakeOk? {
      j := i - 1;
      RunInv(r, who, acts, j);
      hide IsRun;
      StepEffect(r[j], r[i], p, acts[j]);
      TakerDequeues(r[j], p);
      SameOne(r, j, p);
    } else {
      j := DequeueTakesEffect(r, who, acts, i - 1, p, elem);
    }
    SameMore(r, j, i - 1, p);
  }

  lemma TakerDequeues(s: State, p: nat)
    requires p < |s.threads| && s.threads[p].pc.DeqCas?
    ensures Dequeuing(s.threads[p].pc)
  {
  }
}
