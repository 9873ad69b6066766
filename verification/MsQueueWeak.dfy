/** What the strength of the compare-and-exchange decides: whether an idle queue shows all its elements. */
module MsQueueWeak {
  import opened MsQueue
  import opened MsQueueProof
  import opened MsQueueFifo

  ghost predicate AllIdle(s: State) {
    forall p | 0 <= p < |s.threads| :: s.threads[p].pc.Idle?
  }

  /** Everything linked has been reached by `last`. */
  ghost predicate ShowsAll(s: State) { ListOk(s) && Swung(s) == Linked(s) }

  /** In all runs with this kind of compare-and-exchange and tags of this width, the queue shows all its
      elements when idle. */
  ghost predicate IdleShowsAll(weak: bool, m: nat) {
    forall r: seq<State>, who: seq<nat>, acts: seq<Action>, i: nat |
      IsRun(r, who, acts) && i < |r| && r[0].weak == weak && r[0].modulus == m && AllIdle(r[i]) :: ShowsAll(r[i])
  }

  /** An idle queue with a strong compare-and-exchange: nobody is about to swing, so nothing is due. */
  lemma StrongShowsAll(s: State)
    requires Inv(s) && !s.weak && AllIdle(s)
    ensures ShowsAll(s)
  {
    assert s.threads == [] || s.threads[0].pc.Idle?;
  }

  // ------------------------------------------------------------ the run that hides an element

  /** The thread under way, alone; `m` is the modulus of the tags. */
  function Base(m: nat, v: int, pc: Pc): State {
    State(m, true, Tagged(1, 0), Tagged(1, 0), map[1 := Node(0, NULL), 2 := Node(v, NULL)],
          [Thread(pc, false, false)], [1], 0, 0, 0)
  }

  /** The same after the link: `last` has stayed behind. */
  function Behind(m: nat, v: int, pc: Pc): State
    requires m > 0
  {
    State(m, true, Tagged(1, 0), Tagged(1, 0), map[1 := Node(0, Tagged(2, 1 % m)), 2 := Node(v, NULL)],
          [Thread(pc, false, false)], [1, 2], 0, 0, 0)
  }

  const T0 := Tagged(1, 0)

  function Start(m: nat): State {
    State(m, true, T0, T0, map[1 := Node(0, NULL)], [Thread(Idle, false, false)], [1], 0, 0, 0)
  }

  function HiddenRun(m: nat, v: int): seq<State>
    requires m > 0
  {
    [ Start(m),
      Base(m, v, EnqLast(2)),
      Base(m, v, EnqNext(2, T0, 0)),
      Base(m, v, EnqCheck(2, T0, 0, NULL)),
      Base(m, v, EnqLink(2, T0, 0, NULL)),
      Behind(m, v, EnqSwing(2, T0, 0)),
      Behind(m, v, EnqReturn(2, 1)),
      Behind(m, v, Idle),
      Behind(m, v, EmptyFirst),
      Behind(m, v, EmptyLast(T0, 0)),
      Behind(m, v, DeqReturn(false, 0, true)).(threads := [Thread(DeqReturn(false, 0, true), false, true)]) ]
  }

  function HiddenActs(v: int): seq<Action> {
    [EnqStart(v, 2), LoadLast, LoadNext, ReloadLast, LinkOk, SwingFail, EnqDone, WrapStart, ReadFirst, ReadLast]
  }

  function HiddenWho(): seq<nat> { [0, 0, 0, 0, 0, 0, 0, 0, 0, 0] }

  lemma HiddenEnqueue(m: nat, v: int)
    requires m > 0
    ensures Step(Start(m), Base(m, v, EnqLast(2)), 0, EnqStart(v, 2))
    ensures Step(Base(m, v, EnqLast(2)), Base(m, v, EnqNext(2, T0, 0)), 0, LoadLast)
    ensures Step(Base(m, v, EnqNext(2, T0, 0)), Base(m, v, EnqCheck(2, T0, 0, NULL)), 0, LoadNext)
    ensures Step(Base(m, v, EnqCheck(2, T0, 0, NULL)), Base(m, v, EnqLink(2, T0, 0, NULL)), 0, ReloadLast)
  {
  }

  lemma HiddenRest(m: nat, v: int)
    requires m > 0
    ensures Step(Base(m, v, EnqLink(2, T0, 0, NULL)), Behind(m, v, EnqSwing(2, T0, 0)), 0, LinkOk)
    ensures Step(Behind(m, v, EnqSwing(2, T0, 0)), Behind(m, v, EnqReturn(2, 1)), 0, SwingFail)
    ensures Step(Behind(m, v, EnqReturn(2, 1)), Behind(m, v, Idle), 0, EnqDone)
    ensures Step(Behind(m, v, Idle), Behind(m, v, EmptyFirst), 0, WrapStart)
    ensures Step(Behind(m, v, EmptyFirst), Behind(m, v, EmptyLast(T0, 0)), 0, ReadFirst)
  {
  }

  lemma HiddenLast(m: nat, v: int)
    requires m > 0
    ensures Step(HiddenRun(m, v)[9], HiddenRun(m, v)[10], 0, ReadLast)
  {
  }

  lemma HiddenIsRun(m: nat, v: int)
    requires m > 0
    ensures IsRun(HiddenRun(m, v), HiddenWho(), HiddenActs(v))
  {
    HiddenEnqueue(m, v);
    HiddenRest(m, v);
    HiddenLast(m, v);
    assert Init(Start(m));
    hide Step, Init;
    var r, who, acts := HiddenRun(m, v), HiddenWho(), HiddenActs(v);
    forall i | 0 <= i < |who|
      ensures Step(r[i], r[i + 1], who[i], acts[i])
    {
    }
  }

  /** With a compare-and-exchange that may fail spuriously, a thread that is alone can enqueue any value,
      return, and then be told by the wrapper that the queue is empty. */
  lemma WeakHidesElement(m: nat, v: int)
    requires m > 0
    ensures IsRun(HiddenRun(m, v), HiddenWho(), HiddenActs(v))
    ensures HiddenActs(v)[0] == EnqStart(v, 2) && AllIdle(HiddenRun(m, v)[7])
    ensures HiddenRun(m, v)[10].threads[0].pc == DeqReturn(false, 0, true)
    ensures forall i | 7 <= i <= 10 ::
              Inv(HiddenRun(m, v)[i]) && Linked(HiddenRun(m, v)[i]) == [v] && Swung(HiddenRun(m, v)[i]) == []
  {
    HiddenIsRun(m, v);
    forall i | 7 <= i <= 10
      ensures Inv(HiddenRun(m, v)[i]) && Linked(HiddenRun(m, v)[i]) == [v] && Swung(HiddenRun(m, v)[i]) == []
    {
      RunInv(HiddenRun(m, v), HiddenWho(), HiddenActs(v), i);
    }
  }

  /** With tags of any width, an idle queue shows all its elements in every run exactly when the
      compare-and-exchange is strong. */
  lemma IdleShowsAllIff(weak: bool, m: nat)
    requires m > 0
    ensures IdleShowsAll(weak, m) <==> !weak
  {
    if weak {
      WeakHidesElement(m, 1);
      var r := HiddenRun(m, 1);
      assert r[0].weak == weak && r[0].modulus == m && AllIdle(r[7]) && !ShowsAll(r[7]);
    } else {
      forall r: seq<State>, who: seq<nat>, acts: seq<Action>, i: nat |
        IsRun(r, who, acts) && i < |r| && r[0].weak == weak && r[0].modulus == m && AllIdle(r[i])
        ensures ShowsAll(r[i])
      {
        RunInv(r, who, acts, i);
        WeakKept(r, who, acts, i);
        StrongShowsAll(r[i]);
      }
    }
  }

  /** `print_size` on a queue at rest: follows `Next` from `first` to `last` and counts. */
  method PrintSize(s: State) returns (c: nat)
    requires Inv(s)
    ensures c == |Swung(s)|
    ensures AllIdle(s) && !s.weak ==> c == |Linked(s)|
  {
    var first, last := s.first, s.last;
    c := 0;
    while first.ptr != last.ptr
      invariant s.f + c <= s.l && first.ptr == s.order[s.f + c]
      decreases s.l - c
    {
      NextOf(s, s.f + c);
      first := s.nodes[first.ptr].next;
      c := c + 1;
    }
  }
}
